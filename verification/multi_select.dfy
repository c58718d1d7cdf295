/** The checkbox multi-select used by the offer form to pick products,
    categories or festivals: a search box narrowing the items, one checkbox
    per item, and "Select All" / "Clear" buttons. The component never holds
    the selection itself; each operation computes the next selection array
    and hands it to its owner. */
module MultiSelect {
  import opened Wrappers
  import opened Text
  import opened Lists

  type Id = string

  /** A selectable reference entity: its `_id` and its (possibly missing) name. */
  datatype Item = Item(id: Id, name: Option<string>)

  /** `(it.name || "").toLowerCase().includes(q.toLowerCase())` */
  predicate NameMatches(q: string, it: Item) {
    Contains(Lower(it.name.GetOr("")), Lower(q))
  }

  /** `filtered`: the items shown under the search box. */
  function Filtered(items: seq<Item>, q: string): (r: seq<Item>) {
    Filter(items, (it: Item) => NameMatches(q, it))
  }

  /** The shown items are exactly the items whose name contains the search
      text, ignoring case: the lower-cased search text occurs at some position
      of the lower-cased name. */
  lemma FilteredExactly(items: seq<Item>, q: string, it: Item)
    ensures it in Filtered(items, q) <==> it in items && NameMatches(q, it)
    ensures it in Filtered(items, q) <==>
              it in items && Occurs(Lower(it.name.GetOr("")), Lower(q))
  {
    FilterMembership(items, (it: Item) => NameMatches(q, it), it);
    ContainsIff(Lower(it.name.GetOr("")), Lower(q));
  }

  /** With an empty search box every item is shown, in order. */
  lemma FilteredEmptyQuery(items: seq<Item>)
    ensures Filtered(items, "") == items
  {
    forall i | 0 <= i < |items| ensures NameMatches("", items[i]) {
      ContainsEmpty(Lower(items[i].name.GetOr("")));
    }
    FilterKeepsAll(items, (it: Item) => NameMatches("", it));
  }

  /** `toggleOne(id)`: remove every occurrence of a selected id, or append an
      unselected one. */
  function ToggleOne(selected: seq<Id>, id: Id): (r: seq<Id>) {
    if id in selected then RemoveAll(selected, id) else selected + [id]
  }

  /** Toggling flips the membership of `id` and of no other id. */
  lemma ToggleFlips(selected: seq<Id>, id: Id, other: Id)
    ensures id in ToggleOne(selected, id) <==> id !in selected
    ensures other != id ==> (other in ToggleOne(selected, id) <==> other in selected)
  {
    if id in selected {
      RemoveAllMembership(selected, id, id);
      RemoveAllMembership(selected, id, other);
    }
  }

  /** Toggling an unselected id twice gives back the identical array. */
  lemma ToggleAbsentTwice(selected: seq<Id>, id: Id)
    requires id !in selected
    ensures ToggleOne(ToggleOne(selected, id), id) == selected
  {
    RemoveAllAppend(selected, [id], id);
    RemoveAllAbsent(selected, id);
    assert RemoveAll([id], id) == [];
  }

  /** Toggling a selected id twice gives back the same set of ids (the id
      moves to the end of the array). */
  lemma TogglePresentTwice(selected: seq<Id>, id: Id, other: Id)
    requires id in selected
    ensures other in ToggleOne(ToggleOne(selected, id), id) <==> other in selected
  {
    RemoveAllMembership(selected, id, id);
    RemoveAllMembership(selected, id, other);
  }

  /** `selectAll`: the ids of the items currently shown, in order. */
  function SelectAll(items: seq<Item>, q: string): (r: seq<Id>)
    ensures |r| == |Filtered(items, q)|
    ensures forall i :: 0 <= i < |r| ==> r[i] == Filtered(items, q)[i].id
  {
    Map(Filtered(items, q), (it: Item) => it.id)
  }

  /** After "Select All" an id is selected exactly when some shown item has it. */
  lemma SelectAllExactly(items: seq<Item>, q: string, id: Id)
    ensures id in SelectAll(items, q) <==> exists it :: it in items && NameMatches(q, it) && it.id == id
  {
    var shown := Filtered(items, q);
    var r := SelectAll(items, q);
    if id in r {
      var i :| 0 <= i < |r| && r[i] == id;
      FilteredExactly(items, q, shown[i]);
    }
    if it :| it in items && NameMatches(q, it) && it.id == id {
      FilteredExactly(items, q, it);
      var i :| 0 <= i < |shown| && shown[i] == it;
      assert r[i] == id;
    }
  }

  /** `clearAll`: nothing stays selected. */
  function ClearAll(): (r: seq<Id>)
    ensures forall id :: id !in r
  {
    []
  }
}
