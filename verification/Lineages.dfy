/** Token rotation in general: each row of a table either starts a lineage or replaces an earlier row. */
module Lineages {
  import opened Results

  /** A stored digest. Hashing is taken to be injective. */
  datatype Digest = Sha256(preimage: string)

  /** For each row the row it replaced, if any: always an earlier one. */
  ghost predicate Grown(parents: seq<Option<nat>>) {
    forall i :: 0 <= i < |parents| && parents[i].Some? ==> parents[i].value < i
  }

  /** No row is replaced twice. */
  ghost predicate ReplacedOnce(parents: seq<Option<nat>>) {
    forall i, j :: 0 <= i < |parents| && 0 <= j < |parents| && parents[i].Some? && parents[i] == parents[j] ==> i == j
  }

  /** The row that started the lineage. */
  function Root(parents: seq<Option<nat>>, i: nat): (r: nat)
    requires Grown(parents) && i < |parents|
    ensures r <= i && parents[r].None?
    decreases i
  {
    if parents[i].None? then i else Root(parents, parents[i].value)
  }

  function Age(parents: seq<Option<nat>>, i: nat): nat
    requires Grown(parents) && i < |parents|
    decreases i
  {
    if parents[i].None? then 0 else Age(parents, parents[i].value) + 1
  }

  /** `j` is reached from `i` by replacements. */
  predicate LeadsTo(parents: seq<Option<nat>>, i: nat, j: nat)
    requires Grown(parents) && i < |parents| && j < |parents|
    decreases j
  {
    i == j || (parents[j].Some? && LeadsTo(parents, i, parents[j].value))
  }

  lemma {:induction false} SameAge(parents: seq<Option<nat>>, i: nat, j: nat)
    requires Grown(parents) && ReplacedOnce(parents) && i < |parents| && j < |parents|
    requires Root(parents, i) == Root(parents, j) && Age(parents, i) == Age(parents, j)
    ensures i == j
    decreases i
  {
    if parents[i].Some? {
      SameAge(parents, parents[i].value, parents[j].value);
    }
  }

  /** A lineage is a path: of two of its rows the younger is reached from the older. */
  lemma {:induction false} LineageIsPath(parents: seq<Option<nat>>, i: nat, j: nat)
    requires Grown(parents) && ReplacedOnce(parents) && i < |parents| && j < |parents|
    requires Root(parents, i) == Root(parents, j) && Age(parents, i) <= Age(parents, j)
    ensures LeadsTo(parents, i, j)
    decreases j
  {
    if Age(parents, i) == Age(parents, j) {
      SameAge(parents, i, j);
    } else {
      LineageIsPath(parents, i, parents[j].value);
    }
  }

  lemma {:induction false} EarlierIsReplaced(parents: seq<Option<nat>>, i: nat, j: nat) returns (k: nat)
    requires Grown(parents) && i < |parents| && j < |parents|
    requires LeadsTo(parents, i, j) && i != j
    ensures k < |parents| && parents[k] == Some(i)
    decreases j
  {
    if parents[j] == Some(i) {
      k := j;
    } else {
      k := EarlierIsReplaced(parents, i, parents[j].value);
    }
  }

  /** When replaced rows are retired, at most one row of a lineage is not. */
  lemma OneUnretired(parents: seq<Option<nat>>, retired: seq<bool>, i: nat, j: nat)
    requires Grown(parents) && ReplacedOnce(parents) && |retired| == |parents|
    requires forall k :: 0 <= k < |parents| && parents[k].Some? ==> retired[parents[k].value]
    requires i < |parents| && j < |parents| && Root(parents, i) == Root(parents, j)
    requires !retired[i] && !retired[j]
    ensures i == j
  {
    if i != j {
      var (older, younger) := if Age(parents, i) <= Age(parents, j) then (i, j) else (j, i);
      LineageIsPath(parents, older, younger);
      var k := EarlierIsReplaced(parents, older, younger);
      assert false;
    }
  }
}
