/**
 * The document store the handlers call (`DatabaseManager`). A collection is
 * the sequence of its documents in natural order, so that "the first match"
 * of `find_one` and the cap of `find(...).limit(1000)` are meaningful. Queries
 * follow MongoDB's equality, range, case-insensitive pattern and `$or` forms
 * as the handlers use them.
 */
module Store {
  import opened Wrappers
  import opened Values
  import Seqs
  import Text

  type Collection = seq<Doc>

  /** The cap `find_documents` and `get_documents` put on a result. */
  const FindLimit: nat := 1000

  /** A condition on one field of a document. */
  datatype Cond =
    | Equals(v: Value)                        // {field: v}
    | Between(lo: int, hi: int)               // {field: {"$gte": lo, "$lte": hi}}
    | AtLeast(lo: int)                        // {field: {"$gte": lo}}
    | ContainsIgnoringCase(pattern: string)   // {field: {"$regex": pattern, "$options": "i"}}

  /** A top-level query entry: a field condition, or `"$or"` over field conditions. */
  datatype Clause = Field(c: Cond) | AnyOf(alternatives: seq<(string, Cond)>)

  type Query = map<string, Clause>

  predicate Holds(v: Value, c: Cond) {
    match c
    case Equals(w) => v == w
    case Between(lo, hi) => v.Time? && lo <= v.t <= hi
    case AtLeast(lo) => v.Time? && lo <= v.t
    case ContainsIgnoringCase(p) => v.Str? && Text.IncludesIgnoringCase(v.s, p)
  }

  predicate ClauseHolds(d: Doc, key: string, cl: Clause) {
    match cl
    case Field(c) => Holds(Get(d, key), c)
    case AnyOf(alts) => exists i :: 0 <= i < |alts| && Holds(Get(d, alts[i].0), alts[i].1)
  }

  /** A document matches a query when every entry of the query holds of it. */
  predicate Matches(d: Doc, q: Query) {
    forall key :: key in q ==> ClauseHolds(d, key, q[key])
  }

  /** The empty query matches every document. */
  lemma EmptyQueryMatchesAll(d: Doc)
    ensures Matches(d, map[])
  {
  }

  predicate HasId(d: Doc, id: string) {
    Get(d, "id") == Str(id)
  }

  /** The position of the first document satisfying `p`, if any. */
  function FirstMatch(c: Collection, p: Doc -> bool): (r: Option<nat>)
    ensures r.Some? ==> r.value < |c| && p(c[r.value])
    ensures r.Some? ==> forall j :: 0 <= j < r.value ==> !p(c[j])
    ensures r.None? ==> forall j :: 0 <= j < |c| ==> !p(c[j])
  {
    if c == [] then None
    else if p(c[0]) then Some(0)
    else match FirstMatch(c[1..], p)
      case None => None
      case Some(k) => Some(k + 1)
  }

  /** `find_one(query)`: the first document matching the query. */
  function FindOne(c: Collection, q: Query): (r: Option<Doc>)
    ensures r.Some? <==> exists i :: 0 <= i < |c| && Matches(c[i], q)
    ensures r.Some? ==> Matches(r.value, q) && r.value in c
  {
    match FirstMatch(c, MatchesQuery(q))
    case None => None
    case Some(k) => Some(c[k])
  }

  /** Appending a matching document to a collection with no match makes it the first match. */
  lemma FindOneAppend(c: Collection, x: Doc, q: Query)
    requires FindOne(c, q).None? && Matches(x, q)
    ensures FindOne(c + [x], q) == Some(x)
  {
    var c' := c + [x];
    assert Matches(c'[|c|], q);
    assert forall j :: 0 <= j < |c| ==> c'[j] == c[j];
  }

  /** `get_document(id)`: the first document whose `id` is `id`. */
  function GetDocument(c: Collection, id: string): (r: Option<Doc>)
    ensures r.Some? <==> exists i :: 0 <= i < |c| && HasId(c[i], id)
    ensures r.Some? ==> HasId(r.value, id) && r.value in c
  {
    match FirstMatch(c, WithId(id))
    case None => None
    case Some(k) => Some(c[k])
  }

  /**
   * `find_documents(query)`: the matching documents in natural order, cut
   * off after the first 1000.
   */
  function FindDocuments(c: Collection, q: Query): (r: seq<Doc>)
    ensures |r| <= FindLimit
    ensures |r| == if |Seqs.Filter(c, MatchesQuery(q))| < FindLimit then |Seqs.Filter(c, MatchesQuery(q))| else FindLimit
    ensures forall i :: 0 <= i < |r| ==> Matches(r[i], q) && r[i] in c
    ensures |r| <= |Seqs.Filter(c, MatchesQuery(q))| && r == Seqs.Filter(c, MatchesQuery(q))[..|r|]
    ensures |Seqs.Filter(c, MatchesQuery(q))| <= FindLimit ==> r == Seqs.Filter(c, MatchesQuery(q))
  {
    Seqs.Take(Seqs.Filter(c, MatchesQuery(q)), FindLimit)
  }

  function MatchesQuery(q: Query): Doc -> bool {
    d => Matches(d, q)
  }

  function WithId(id: string): Doc -> bool {
    d => HasId(d, id)
  }

  /**
   * `create_document`: stamps both timestamps with the same clock reading
   * and appends the document. Returns the new collection and the stored
   * document.
   */
  function CreateDocument(c: Collection, doc: Doc, now: int): (r: (Collection, Doc))
    ensures r.0 == c + [r.1]
    ensures r.1.Keys == doc.Keys + {"created_at", "updated_at"}
    ensures r.1["created_at"] == Time(now) && r.1["updated_at"] == Time(now)
    ensures forall key :: key in doc && key != "created_at" && key != "updated_at" ==> r.1[key] == doc[key]
  {
    var stored := doc["created_at" := Time(now)]["updated_at" := Time(now)];
    (c + [stored], stored)
  }

  /** `$set` of `data` together with a fresh `updated_at`. */
  function SetFields(d: Doc, data: Doc, now: int): Doc {
    d + data["updated_at" := Time(now)]
  }

  /**
   * `update_document`: `$set` on the first document with the id, then a
   * re-read by id; `None` when nothing matched. Every other document is
   * left as it was.
   */
  function UpdateDocument(c: Collection, id: string, data: Doc, now: int): (r: (Collection, Option<Doc>))
    ensures GetDocument(c, id).None? ==> r == (c, None)
    ensures |r.0| == |c|
    ensures FirstMatch(c, WithId(id)).Some? ==>
      var k := FirstMatch(c, WithId(id)).value;
      r.0 == c[k := SetFields(c[k], data, now)]
      && ("id" !in data ==> r.1 == Some(r.0[k]))
  {
    match FirstMatch(c, WithId(id))
    case None => (c, None)
    case Some(k) =>
      var c' := c[k := SetFields(c[k], data, now)];
      if "id" !in data then
        assert c'[..k] == c[..k];
        assert FirstMatch(c', WithId(id)) == Some(k) by { FirstMatchUnchangedPrefix(c, c', WithId(id), k); }
        (c', GetDocument(c', id))
      else
        (c', GetDocument(c', id))
  }

  /** Two collections that agree up to position `k` and both satisfy `p` there have the same first match. */
  lemma {:induction false} FirstMatchUnchangedPrefix(c: Collection, c': Collection, p: Doc -> bool, k: nat)
    requires k < |c| && k < |c'| && c[..k] == c'[..k]
    requires FirstMatch(c, p) == Some(k) && p(c'[k])
    ensures FirstMatch(c', p) == Some(k)
  {
    if k > 0 {
      assert c[0] == c'[0];
      assert c[1..][..k-1] == c'[1..][..k-1];
      FirstMatchUnchangedPrefix(c[1..], c'[1..], p, k - 1);
    }
  }

  /** `delete_document`: removes the first document with the id and reports whether there was one. */
  function DeleteDocument(c: Collection, id: string): (r: (Collection, bool))
    ensures r.1 <==> GetDocument(c, id).Some?
    ensures !r.1 ==> r.0 == c
    ensures r.1 ==> |r.0| == |c| - 1 && Seqs.IsSubseq(r.0, c)
    ensures r.1 ==> multiset(r.0) + multiset{GetDocument(c, id).value} == multiset(c)
    ensures r.1 ==> (FirstMatch(c, WithId(id)).Some? &&
      var k := FirstMatch(c, WithId(id)).value;
      r.0 == c[..k] + c[k+1..])
  {
    match FirstMatch(c, WithId(id))
    case None => (c, false)
    case Some(k) =>
      assert c == c[..k] + [c[k]] + c[k+1..];
      Seqs.RemoveIsSubseq(c, k);
      (c[..k] + c[k+1..], true)
  }
}
