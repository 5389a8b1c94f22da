/** The objects of the active document, and the search of `get_object_name_by_label`. */
module Document {
  import opened Wrappers

  /** A document object: its FreeCAD `Name` (unique in the document) and its `Label`, if it has that property. */
  datatype DocObject = DocObject(Name: string, Label: Option<string>)

  predicate HasLabel(obj: DocObject, query: string)
  {
    obj.Label == Some(query)
  }

  /**
   * The first object, in document order, whose label equals `query`, or
   * `None` when no object carries that label.
   */
  method FindByLabel(objects: seq<DocObject>, query: string) returns (found: Option<DocObject>)
    ensures found.None? <==> forall i :: 0 <= i < |objects| ==> !HasLabel(objects[i], query)
    ensures found.Some? ==>
      exists i :: 0 <= i < |objects| && objects[i] == found.value && HasLabel(objects[i], query) &&
        forall j :: 0 <= j < i ==> !HasLabel(objects[j], query)
  {
    for k := 0 to |objects|
      invariant forall j :: 0 <= j < k ==> !HasLabel(objects[j], query)
    {
      if objects[k].Label.Some? && objects[k].Label.value == query {
        return Some(objects[k]);
      }
    }
    return None;
  }
}
