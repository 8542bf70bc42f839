/**
 * The resource store of the triage assistant (lib/knowledge-base.ts): an
 * ordered sequence of entries, searched by free text and filtered by type.
 * The store itself is a parameter; loading it from a data file is outside
 * the model.
 */
module KnowledgeBase {
  import opened Wrappers
  import opened Seqs
  import opened Strings

  /** A knowledge-base entry; `kind` is the entry's `type` ("crisis resource", "CBT technique", ...). */
  datatype Entry = Entry(id: string, kind: string, text: string)

  function EntryId(e: Entry): string { e.id }

  function EntryKind(e: Entry): string { e.kind }

  /** The entry types the rest of the pipeline refers to by name. */
  const CrisisResource := "crisis resource"
  const CbtTechnique := "CBT technique"
  const DiagnosticCriteria := "diagnostic criteria"
  const SelfCareStrategy := "self-care strategy"

  /** The search terms of a query: lower-cased, then split on single space characters. */
  function Terms(query: string): seq<string> {
    Split(Lower(query), ' ')
  }

  /** The optional `type` argument filters only when it is truthy: present and non-empty. */
  predicate FiltersByType(kind: Option<string>) {
    kind.Some? && kind.value != ""
  }

  predicate AdmitsType(kind: Option<string>, e: Entry) {
    !FiltersByType(kind) || e.kind == kind.value
  }

  /** `searchTerms.some(term => entry.text.toLowerCase().includes(term))` */
  predicate MatchesSomeTerm(e: Entry, terms: seq<string>) {
    exists t | t in terms :: Contains(Lower(e.text), t)
  }

  function TextMatch(terms: seq<string>): Entry -> bool {
    (e: Entry) => MatchesSomeTerm(e, terms)
  }

  function SearchHit(terms: seq<string>, kind: Option<string>): Entry -> bool {
    (e: Entry) => AdmitsType(kind, e) && MatchesSomeTerm(e, terms)
  }

  function HasKind(kind: string): Entry -> bool {
    (e: Entry) => e.kind == kind
  }

  /** `searchKnowledgeBase(query, type)` */
  function Search(store: seq<Entry>, query: string, kind: Option<string>): (r: seq<Entry>)
    ensures IsSubseq(r, store)
    ensures forall e :: e in r <==> e in store && AdmitsType(kind, e) && MatchesSomeTerm(e, Terms(query))
    ensures FiltersByType(kind) ==> forall e :: e in r ==> e.kind == kind.value
  {
    var hit := SearchHit(Terms(query), kind);
    FilterIsSubseq(store, hit);
    FilterMembers(store, hit);
    Filter(store, hit)
  }

  /** `getEntriesByType(type)` */
  function EntriesByType(store: seq<Entry>, kind: string): (r: seq<Entry>)
    ensures IsSubseq(r, store)
    ensures forall e :: e in r <==> e in store && e.kind == kind
  {
    FilterIsSubseq(store, HasKind(kind));
    FilterMembers(store, HasKind(kind));
    Filter(store, HasKind(kind))
  }

  /** The entries `getRandomEntry(type)` draws from. */
  function Pool(store: seq<Entry>, kind: Option<string>): seq<Entry> {
    if FiltersByType(kind) then EntriesByType(store, kind.value) else store
  }

  /** `Math.floor(roll * n)`: the index a roll in [0, 1) selects among `n` entries. */
  function PickIndex(roll: real, n: nat): (i: nat)
    requires 0.0 <= roll < 1.0 && n > 0
    ensures i < n
  {
    assert 0.0 <= roll * n as real < n as real;
    (roll * n as real).Floor
  }

  /**
   * `getRandomEntry(type)` with `Math.random()` supplied as `roll`:
   * the entry at `Math.floor(roll * pool.length)`, or None for an empty pool.
   */
  function RandomEntry(store: seq<Entry>, kind: Option<string>, roll: real): (r: Option<Entry>)
    requires 0.0 <= roll < 1.0
    ensures r.None? <==> forall e :: e in store ==> !AdmitsType(kind, e)
    ensures r.Some? ==> r.value in store && AdmitsType(kind, r.value)
  {
    var entries := Pool(store, kind);
    if |entries| == 0 then None
    else
      var picked := entries[PickIndex(roll, |entries|)];
      assert picked in entries;
      Some(picked)
  }

  /** The roll `k / n` lands on index `k`. */
  lemma RollForIndex(k: nat, n: nat)
    requires k < n
    ensures 0.0 <= k as real / n as real < 1.0
    ensures PickIndex(k as real / n as real, n) == k
  {
    var roll := k as real / n as real;
    assert roll * n as real == k as real;
  }

  /** Every entry of the pool is drawn by some roll: the pick covers the whole pool. */
  lemma RandomEntryReachesAll(store: seq<Entry>, kind: Option<string>, k: nat)
    requires k < |Pool(store, kind)|
    ensures var roll := k as real / |Pool(store, kind)| as real;
      0.0 <= roll < 1.0 && RandomEntry(store, kind, roll) == Some(Pool(store, kind)[k])
  {
    var entries := Pool(store, kind);
    var n := |entries|;
    var roll := k as real / n as real;
    RollForIndex(k, n);
  }

  /** An empty string as `type` is falsy and filters nothing. */
  lemma SearchEmptyTypeIgnored(store: seq<Entry>, query: string)
    ensures Search(store, query, Some("")) == Search(store, query, None)
  {
    var terms := Terms(query);
    FilterCongruent(store, SearchHit(terms, Some("")), SearchHit(terms, None));
  }

  /** A typed search is the text match applied to `getEntriesByType(type)`. */
  lemma SearchWithinType(store: seq<Entry>, query: string, kind: string)
    requires kind != ""
    ensures Search(store, query, Some(kind)) == Filter(EntriesByType(store, kind), TextMatch(Terms(query)))
  {
    var terms := Terms(query);
    FilterFilter(store, HasKind(kind), TextMatch(terms), SearchHit(terms, Some(kind)));
  }

  /**
   * An empty query, or one with a leading, trailing or doubled space, has
   * an empty search term; "" occurs in every text, so every entry of the
   * requested type is returned.
   */
  lemma SearchEmptyTermMatchesAll(store: seq<Entry>, query: string, kind: Option<string>)
    requires YieldsEmptyPiece(Lower(query), ' ')
    ensures Search(store, query, kind) == Pool(store, kind)
  {
    var terms := Terms(query);
    SplitHasEmptyPiece(Lower(query), ' ');
    forall e: Entry
      ensures MatchesSomeTerm(e, terms)
    {
      ContainsEmpty(Lower(e.text));
    }
    if FiltersByType(kind) {
      FilterCongruent(store, SearchHit(terms, kind), HasKind(kind.value));
    } else {
      FilterAll(store, SearchHit(terms, kind));
    }
  }
}
