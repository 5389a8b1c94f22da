/**
 * The session record persisted between runs of the macro
 * (`load_initial_slider_value` and `save_initial_slider_value`): four
 * comma-separated fields, follower label, path label, clamp percentage and
 * last raw slider value. The file itself is modelled by its text, or `None`
 * when it does not exist.
 */
module SessionStore {
  import opened Wrappers
  import opened Numerals

  datatype SessionRecord = SessionRecord(
    followerName: string,
    curveName: string,
    clampedPercentage: Decimal,
    initialValue: Decimal)

  predicate NoComma(s: string)
  {
    forall i :: 0 <= i < |s| ==> s[i] != ','
  }

  function CommaCount(s: string): nat
  {
    if s == [] then 0 else (if s[0] == ',' then 1 else 0) + CommaCount(s[1..])
  }

  /** Python's `s.split(',')`: the pieces between commas, always at least one. */
  function Split(s: string): (fields: seq<string>)
    ensures |fields| == CommaCount(s) + 1
    ensures forall i :: 0 <= i < |fields| ==> NoComma(fields[i])
  {
    if s == [] then [""]
    else
      var rest := Split(s[1..]);
      if s[0] == ',' then [""] + rest
      else [[s[0]] + rest[0]] + rest[1..]
  }

  /** Python's `','.join(fields)`. */
  function Join(fields: seq<string>): string
  {
    if |fields| == 0 then ""
    else if |fields| == 1 then fields[0]
    else fields[0] + "," + Join(fields[1..])
  }

  /**
   * `','.join(map(str, values))` over the record's four fields. The text has
   * three commas of its own beside those of the labels, and it splits back
   * into the four fields exactly when the labels hold no comma.
   */
  function Save(r: SessionRecord): (s: string)
    ensures CommaCount(s) == 3 + CommaCount(r.followerName) + CommaCount(r.curveName)
    ensures NoComma(r.followerName) && NoComma(r.curveName)
            ==> Split(s) == [r.followerName, r.curveName, Show(r.clampedPercentage), Show(r.initialValue)]
  {
    var fields := [r.followerName, r.curveName, Show(r.clampedPercentage), Show(r.initialValue)];
    JoinCommaCount(fields);
    // Both branches compute the same `Join(fields)`; the first only adds the split fact.
    if NoComma(r.followerName) && NoComma(r.curveName) then
      SplitJoin(fields);
      Join(fields)
    else
      Join(fields)
  }

  /**
   * A record is returned only for text of exactly four fields whose third and
   * fourth parse as numbers; a missing file, another field count or a
   * `ValueError` from `float` all give `None`.
   */
  function Load(file: Option<string>): (r: Option<SessionRecord>)
    ensures file.None? ==> r.None?
    ensures r.Some? ==> CommaCount(file.value) == 3
    ensures r.Some? ==> NoComma(r.value.followerName) && NoComma(r.value.curveName)
  {
    match file
    case None => None
    case Some(text) =>
      var data := Split(text);
      if |data| == 4 then
        match (ParseFloat(data[2]), ParseFloat(data[3]))
        case (Some(percentage), Some(value)) =>
          Some(SessionRecord(data[0], data[1], percentage, value))
        case _ => None
      else None
  }

  // ---------------------------------------------------------------------------
  // Split and Join are inverse

  lemma {:induction false} SplitComma(s: string)
    ensures Split("," + s) == [""] + Split(s)
  {
  }

  lemma {:induction false} SplitCommaFreePrefix(a: string, s: string)
    requires NoComma(a)
    ensures Split(a + s) == [a + Split(s)[0]] + Split(s)[1..]
  {
    if a != [] {
      assert (a + s)[0] == a[0];
      assert (a + s)[1..] == a[1..] + s;
      SplitCommaFreePrefix(a[1..], s);
      assert [a[0]] + (a[1..] + Split(s)[0]) == a + Split(s)[0];
    } else {
      var fields := Split(s);
      assert a + s == s;
      assert a + fields[0] == fields[0];
      assert fields == [fields[0]] + fields[1..];
    }
  }

  /** Splitting the join of comma-free fields gives those fields back. */
  lemma {:induction false} SplitJoin(fields: seq<string>)
    requires |fields| >= 1
    requires forall i :: 0 <= i < |fields| ==> NoComma(fields[i])
    ensures Split(Join(fields)) == fields
  {
    if |fields| == 1 {
      SplitCommaFreePrefix(fields[0], "");
      assert fields[0] + "" == fields[0];
    } else {
      var rest := Join(fields[1..]);
      SplitJoin(fields[1..]);
      assert fields[0] + "," + rest == fields[0] + ("," + rest);
      SplitCommaFreePrefix(fields[0], "," + rest);
      SplitComma(rest);
      var tail := Split("," + rest);
      assert tail[0] == "" && tail[1..] == fields[1..];
      assert fields[0] + tail[0] == fields[0];
      assert fields == [fields[0]] + fields[1..];
    }
  }

  /** Joining the pieces of any text with commas gives the text back. */
  lemma {:induction false} JoinSplit(s: string)
    ensures Join(Split(s)) == s
  {
    if s != [] {
      var rest := Split(s[1..]);
      JoinSplit(s[1..]);
      if s[0] == ',' {
        assert Split(s) == [""] + rest;
        assert ([""] + rest)[1..] == rest;
        assert s == "," + s[1..];
      } else {
        var fields := Split(s);
        assert fields == [[s[0]] + rest[0]] + rest[1..];
        if |rest| == 1 {
          assert s == [s[0]] + s[1..];
        } else {
          assert fields[1..] == rest[1..];
          assert Join(rest) == rest[0] + "," + Join(rest[1..]);
          assert s == [s[0]] + s[1..];
        }
      }
    }
  }

  // ---------------------------------------------------------------------------
  // Properties of the record format

  /** `load` after `save` gives back the saved record, when neither label holds a comma. */
  lemma {:induction false} LoadSave(r: SessionRecord)
    requires NoComma(r.followerName) && NoComma(r.curveName)
    ensures Load(Some(Save(r))) == Some(r)
  {
    var data := Split(Save(r));
    assert data == [r.followerName, r.curveName, Show(r.clampedPercentage), Show(r.initialValue)];
    ParseShow(r.clampedPercentage);
    ParseShow(r.initialValue);
  }

  /** A label holding a comma does not survive the round trip: the record reads back as `None`. */
  lemma {:induction false} LoadSaveCommaInLabel(r: SessionRecord)
    requires !NoComma(r.followerName) || !NoComma(r.curveName)
    ensures Load(Some(Save(r))) == None
  {
    var text := Save(r);
    if Load(Some(text)).Some? {
      var fields := [r.followerName, r.curveName, Show(r.clampedPercentage), Show(r.initialValue)];
      JoinCommaCount(fields);
      assert CommaCount(r.followerName) + CommaCount(r.curveName) > 0 by {
        CommaCountPositive(if NoComma(r.followerName) then r.curveName else r.followerName);
      }
      assert false;
    }
  }

  lemma {:induction false} NoCommaCount(s: string)
    requires NoComma(s)
    ensures CommaCount(s) == 0
  {
    if s != [] {
      NoCommaCount(s[1..]);
    }
  }

  lemma {:induction false} CommaCountPositive(s: string)
    requires !NoComma(s)
    ensures CommaCount(s) > 0
  {
    if s[0] != ',' {
      CommaCountPositive(s[1..]);
    }
  }

  lemma {:induction false} CommaCountAppend(a: string, b: string)
    ensures CommaCount(a + b) == CommaCount(a) + CommaCount(b)
  {
    if a == [] {
      assert a + b == b;
    } else {
      assert (a + b)[1..] == a[1..] + b;
      CommaCountAppend(a[1..], b);
    }
  }

  /** The join of `n >= 1` comma-free fields holds exactly the `n - 1` separating commas. */
  lemma {:induction false} JoinCommaFree(fields: seq<string>)
    requires |fields| >= 1
    requires forall i :: 0 <= i < |fields| ==> NoComma(fields[i])
    ensures CommaCount(Join(fields)) == |fields| - 1
  {
    NoCommaCount(fields[0]);
    if |fields| > 1 {
      var rest := Join(fields[1..]);
      JoinCommaFree(fields[1..]);
      CommaCountAppend(fields[0] + ",", rest);
      CommaCountAppend(fields[0], ",");
      assert CommaCount(",") == 1;
    }
  }

  /** The join of a record's four fields: three commas of its own plus those of the two labels. */
  lemma {:induction false} JoinCommaCount(fields: seq<string>)
    requires |fields| == 4
    requires NoComma(fields[2]) && NoComma(fields[3])
    ensures CommaCount(Join(fields)) == 3 + CommaCount(fields[0]) + CommaCount(fields[1])
  {
    NoCommaCount(fields[2]);
    NoCommaCount(fields[3]);
    assert CommaCount(",") == 1;
    var t3 := fields[3];
    assert Join(fields[3..]) == t3;
    var t2 := fields[2] + "," + t3;
    assert Join(fields[2..]) == t2;
    CommaCountAppend(fields[2] + ",", t3);
    CommaCountAppend(fields[2], ",");
    var t1 := fields[1] + "," + t2;
    assert Join(fields[1..]) == t1;
    CommaCountAppend(fields[1] + ",", t2);
    CommaCountAppend(fields[1], ",");
    var t0 := fields[0] + "," + t1;
    assert Join(fields) == t0;
    CommaCountAppend(fields[0] + ",", t1);
    CommaCountAppend(fields[0], ",");
  }

  /**
   * A record read from the file, saved again and read back, is the same
   * record: the labels of a loaded record hold no comma.
   */
  lemma {:induction false} ReloadIsStable(text: string)
    requires Load(Some(text)).Some?
    ensures Load(Some(Save(Load(Some(text)).value))) == Load(Some(text))
  {
    LoadSave(Load(Some(text)).value);
  }

  /**
   * Four comma-free fields whose third and fourth are numbers always load, as
   * the record of those four fields.
   */
  lemma {:induction false} LoadAccepts(follower: string, curve: string, percentage: string, value: string)
    requires NoComma(follower) && NoComma(curve) && NoComma(percentage) && NoComma(value)
    requires ParseFloat(percentage).Some? && ParseFloat(value).Some?
    ensures Load(Some(Join([follower, curve, percentage, value])))
         == Some(SessionRecord(follower, curve, ParseFloat(percentage).value, ParseFloat(value).value))
  {
    SplitJoin([follower, curve, percentage, value]);
  }

  /** Text with other than three commas (other than four fields) never loads. */
  lemma LoadRejectsFieldCount(text: string)
    requires CommaCount(text) != 3
    ensures Load(Some(text)) == None
  {
  }

  /** A non-numeric third or fourth field is a `ValueError`, reported as `None`. */
  lemma {:induction false} LoadRejectsNonNumeric(follower: string, curve: string, percentage: string, value: string)
    requires NoComma(follower) && NoComma(curve) && NoComma(percentage) && NoComma(value)
    requires ParseFloat(percentage).None? || ParseFloat(value).None?
    ensures Load(Some(Join([follower, curve, percentage, value]))) == None
  {
    SplitJoin([follower, curve, percentage, value]);
  }

  /** `float("fifty")` raises `ValueError`. */
  lemma ParseFloatRejectsWord()
    ensures ParseFloat("fifty") == None
  {
  }

  /**
   * A hand-edited file `Cube,Sphere,fifty,10`, with a word for the
   * percentage, reads as `None`, not as an error.
   */
  lemma LoadRejectsWordPercentage()
    ensures Load(Some(Join(["Cube", "Sphere", "fifty", "10"]))) == None
  {
    ParseFloatRejectsWord();
    LoadRejectsNonNumeric("Cube", "Sphere", "fifty", "10");
  }

  /** A file of three fields reads as `None`. */
  lemma LoadRejectsThreeFields()
    ensures Load(Some("Cube,Sphere,50")) == None
  {
    assert "Cube,Sphere,50" == Join(["Cube", "Sphere", "50"]);
    SplitJoin(["Cube", "Sphere", "50"]);
  }
}
