/** What the two persisted collections share: the outcome of reading the
    stored entry back, and removal of every record carrying a given id. */
module Records {

  /** The stored entry as the initial load finds it: missing (or empty),
      not parseable, or a list written earlier. */
  datatype Stored<T> = Absent | Unparseable | Written(records: seq<T>)

  /** The list the initial load leaves in memory: the stored list when there
      is one, otherwise the initial empty list. */
  function Reload<T>(s: Stored<T>): (r: seq<T>)
    ensures s.Written? ==> r == s.records
    ensures !s.Written? ==> r == []
  {
    match s
    case Written(records) => records
    case _ => []
  }

  predicate HasId<T>(xs: seq<T>, idOf: T -> string, id: string) {
    exists i :: 0 <= i < |xs| && idOf(xs[i]) == id
  }

  /** No two records share an id. */
  predicate UniqueIds<T>(xs: seq<T>, idOf: T -> string) {
    forall i, j :: 0 <= i < j < |xs| ==> idOf(xs[i]) != idOf(xs[j])
  }

  /** `filter(x => x.id !== id)`: the records whose id differs, in their order. */
  function RemoveId<T>(xs: seq<T>, idOf: T -> string, id: string): (r: seq<T>)
    ensures |r| <= |xs|
    ensures forall i :: 0 <= i < |r| ==> r[i] in xs && idOf(r[i]) != id
    ensures forall i :: 0 <= i < |xs| && idOf(xs[i]) != id ==> xs[i] in r
    ensures !HasId(r, idOf, id)
    ensures !HasId(xs, idOf, id) ==> r == xs
    ensures HasId(xs, idOf, id) ==> |r| < |xs|
  {
    if |xs| == 0 then []
    else
      var rest := RemoveId(xs[1..], idOf, id);
      assert forall i :: 1 <= i < |xs| ==> xs[1..][i - 1] == xs[i];
      if idOf(xs[0]) == id then rest else [xs[0]] + rest
  }

  /** Removal works record by record, so it keeps the order of what remains. */
  lemma {:induction false} RemoveIdAppend<T>(xs: seq<T>, ys: seq<T>, idOf: T -> string, id: string)
    ensures RemoveId(xs + ys, idOf, id) == RemoveId(xs, idOf, id) + RemoveId(ys, idOf, id)
    decreases |xs|
  {
    if |xs| == 0 {
      assert xs + ys == ys;
    } else {
      assert (xs + ys)[1..] == xs[1..] + ys;
      RemoveIdAppend(xs[1..], ys, idOf, id);
    }
  }

  /** Removing the same id twice is removing it once. */
  lemma RemoveIdIdempotent<T>(xs: seq<T>, idOf: T -> string, id: string)
    ensures RemoveId(RemoveId(xs, idOf, id), idOf, id) == RemoveId(xs, idOf, id)
  {
  }

  /** Removal keeps ids unique. */
  lemma {:induction false} RemoveIdKeepsUnique<T>(xs: seq<T>, idOf: T -> string, id: string)
    requires UniqueIds(xs, idOf)
    ensures UniqueIds(RemoveId(xs, idOf, id), idOf)
    decreases |xs|
  {
    if |xs| > 0 {
      RemoveIdKeepsUnique(xs[1..], idOf, id);
      var rest := RemoveId(xs[1..], idOf, id);
      if idOf(xs[0]) != id {
        forall j | 0 <= j < |rest|
          ensures idOf(xs[0]) != idOf(rest[j])
        {
          assert rest[j] in xs[1..];
        }
      }
    }
  }
}
