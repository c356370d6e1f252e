/**
 * Photometry records of one Lasair object (its `diaSourcesList`) and the table that
 * groups them by detection id (the `defaultdict(list)` built in `_parse_obj`).
 */
module Photometry {

  /** A detection (diaSource) identifier. */
  type SourceId = int

  /**
   * One row of `diaSourcesList`. Only the fields the core reads are kept; flux and
   * time values are copied, never computed with, so `real` stands for Python's float.
   */
  datatype Record = Record(
    diaSourceId: SourceId,
    band: string,
    midpointMjdTai: real,
    psfFlux: real,
    psfFluxErr: real)

  /** The records with detection id `id`, in list order. */
  function Matching(rs: seq<Record>, id: SourceId): seq<Record>
  {
    if rs == [] then []
    else Matching(rs[..|rs| - 1], id) + (if rs[|rs| - 1].diaSourceId == id then [rs[|rs| - 1]] else [])
  }

  /** The detection ids that occur in `rs`. */
  function SourceIds(rs: seq<Record>): set<SourceId>
  {
    set r | r in rs :: r.diaSourceId
  }

  /** The table `_parse_obj` builds: each occurring id mapped to its records. */
  function Grouped(rs: seq<Record>): map<SourceId, seq<Record>>
  {
    map id | id in SourceIds(rs) :: Matching(rs, id)
  }

  /** `table[id]` on a `defaultdict(list)`: a missing id reads as the empty list. */
  function Lookup(table: map<SourceId, seq<Record>>, id: SourceId): seq<Record>
  {
    if id in table then table[id] else []
  }

  /** The same lookup's effect on the table: a missing id is inserted with the empty list. */
  function LookupInsert(table: map<SourceId, seq<Record>>, id: SourceId): (t: map<SourceId, seq<Record>>)
    ensures t.Keys == table.Keys + {id}
    ensures forall k :: Lookup(t, k) == Lookup(table, k)
  {
    if id in table then table else table[id := []]
  }

  /**
   * The grouping loop of `_parse_obj`: `for s in diaSourcesList: table[s.diaSourceId].append(s)`.
   */
  method BuildPhotometry(rs: seq<Record>) returns (table: map<SourceId, seq<Record>>)
    ensures table == Grouped(rs)
    ensures forall id :: Lookup(table, id) == Matching(rs, id)
  {
    table := map[];
    for i := 0 to |rs|
      invariant table == Grouped(rs[..i])
    {
      var s := rs[i];
      var current := if s.diaSourceId in table then table[s.diaSourceId] else [];
      assert rs[..i + 1] == rs[..i] + [s];
      GroupedSnoc(rs[..i], s);
      table := table[s.diaSourceId := current + [s]];
    }
    assert rs[..|rs|] == rs;
    forall id ensures Lookup(table, id) == Matching(rs, id) {
      MatchingEmpty(rs, id);
    }
  }

  /** Appending one record appends it to its own id's group and leaves the others alone. */
  lemma GroupedSnoc(rs: seq<Record>, s: Record)
    ensures Grouped(rs + [s]) == Grouped(rs)[s.diaSourceId := Lookup(Grouped(rs), s.diaSourceId) + [s]]
  {
    var rs' := rs + [s];
    assert rs'[..|rs'| - 1] == rs;
    assert SourceIds(rs') == SourceIds(rs) + {s.diaSourceId};
    MatchingEmpty(rs, s.diaSourceId);
    var lhs, rhs := Grouped(rs'), Grouped(rs)[s.diaSourceId := Lookup(Grouped(rs), s.diaSourceId) + [s]];
    assert lhs.Keys == rhs.Keys;
    forall id | id in lhs.Keys ensures lhs[id] == rhs[id] {
      assert lhs[id] == Matching(rs', id);
    }
  }

  /** No record has id `id` exactly when the matching list is empty. */
  lemma {:induction false} MatchingEmpty(rs: seq<Record>, id: SourceId)
    ensures Matching(rs, id) == [] <==> id !in SourceIds(rs)
  {
    if rs != [] {
      MatchingEmpty(rs[..|rs| - 1], id);
      assert rs == rs[..|rs| - 1] + [rs[|rs| - 1]];
      assert SourceIds(rs) == SourceIds(rs[..|rs| - 1]) + {rs[|rs| - 1].diaSourceId};
    }
  }

  /** A record is in the matching list exactly when it is in `rs` and carries id `id`. */
  lemma {:induction false} MatchingMembers(rs: seq<Record>, id: SourceId, x: Record)
    ensures x in Matching(rs, id) <==> x in rs && x.diaSourceId == id
  {
    if rs != [] {
      MatchingMembers(rs[..|rs| - 1], id, x);
      assert rs == rs[..|rs| - 1] + [rs[|rs| - 1]];
    }
  }

  /**
   * Matching keeps list order: the records of `a + b` with id `id` are those of `a`
   * followed by those of `b`.
   */
  lemma {:induction false} MatchingConcat(a: seq<Record>, b: seq<Record>, id: SourceId)
    ensures Matching(a + b, id) == Matching(a, id) + Matching(b, id)
  {
    if b == [] {
      assert a + b == a;
    } else {
      var b' := b[..|b| - 1];
      MatchingConcat(a, b', id);
      assert (a + b)[..|a + b| - 1] == a + b';
    }
  }
}
