/** The newsletter subscriber list: a search box filtering subscribers by
    e-mail address. */
module Newsletter {
  import opened Wrappers
  import opened Text
  import opened Lists

  datatype Subscriber = Subscriber(id: string, email: string, source: Option<string>, createdAt: int)

  /** `res.data.items || []`: a response without `items` gives no subscribers. */
  function LoadedItems(items: Option<seq<Subscriber>>): (r: seq<Subscriber>)
    ensures items.None? ==> r == []
    ensures items.Some? ==> r == items.value
  {
    items.GetOr([])
  }

  /** `s.email.toLowerCase().includes(search.toLowerCase())` */
  predicate EmailMatches(search: string, s: Subscriber) {
    Contains(Lower(s.email), Lower(search))
  }

  /** `filtered`: the subscribers shown in the table. */
  function Filtered(items: seq<Subscriber>, search: string): (r: seq<Subscriber>) {
    Filter(items, (s: Subscriber) => EmailMatches(search, s))
  }

  /** A subscriber is shown exactly when its lower-cased e-mail contains the
      lower-cased search text, that is, when the lower-cased search text
      occurs at some position of the lower-cased e-mail. */
  lemma FilteredExactly(items: seq<Subscriber>, search: string, s: Subscriber)
    ensures s in Filtered(items, search) <==> s in items && EmailMatches(search, s)
    ensures s in Filtered(items, search) <==>
              s in items && Occurs(Lower(s.email), Lower(search))
  {
    FilterMembership(items, (s: Subscriber) => EmailMatches(search, s), s);
    ContainsIff(Lower(s.email), Lower(search));
  }

  /** The table keeps the order of the loaded list: filtering a list made of
      two parts shows the first part's matches before the second's. */
  lemma FilteredKeepsOrder(a: seq<Subscriber>, b: seq<Subscriber>, search: string)
    ensures Filtered(a + b, search) == Filtered(a, search) + Filtered(b, search)
  {
    FilterAppend(a, b, (s: Subscriber) => EmailMatches(search, s));
  }

  /** An empty search shows every subscriber, and the displayed total is then
      the number of loaded subscribers. */
  lemma EmptySearchShowsAll(items: seq<Subscriber>)
    ensures Filtered(items, "") == items
    ensures Total(items, "") == |items|
  {
    forall i | 0 <= i < |items| ensures EmailMatches("", items[i]) {
      ContainsEmpty(Lower(items[i].email));
    }
    FilterKeepsAll(items, (s: Subscriber) => EmailMatches("", s));
  }

  /** The search matches regardless of the case in which it is typed. */
  lemma SearchIgnoresCase(items: seq<Subscriber>, search: string)
    ensures Filtered(items, Lower(search)) == Filtered(items, search)
  {
    LowerIdempotent(search);
    FilterCongruent(items, (s: Subscriber) => EmailMatches(Lower(search), s),
                           (s: Subscriber) => EmailMatches(search, s));
  }

  /** "Total: n subscribers": the number of rows shown, which is never more
      than the number loaded and equals it exactly when every subscriber
      matches the search. */
  function Total(items: seq<Subscriber>, search: string): (n: nat)
    ensures n <= |items|
    ensures n == |items| <==> forall i :: 0 <= i < |items| ==> EmailMatches(search, items[i])
  {
    FilterLength(items, (s: Subscriber) => EmailMatches(search, s));
    |Filtered(items, search)|
  }

  /** `s.source || "footer"`: the source column, "footer" when unknown. */
  function DisplayedSource(s: Subscriber): (r: string)
    ensures s.source.None? || s.source.value == "" ==> r == "footer"
    ensures s.source.Some? && s.source.value != "" ==> r == s.source.value
  {
    match s.source
    case Some(src) => if src == "" then "footer" else src
    case None => "footer"
  }
}
