/** The custom ids the patient and prescription controllers generate: a
    prefix followed by a number, the successor of the number in the id that
    sorts last, or a seed for an empty collection. */
module Ids {
  import opened Wrappers
  import opened Text
  import Sorting

  /** `findOne().sort({ _id: -1 })`: the id that sorts last in string order,
      None for an empty collection. */
  function LastId(ids: seq<string>): (last: Option<string>)
    ensures last.None? <==> ids == []
    ensures last.Some? ==> last.value in ids && forall id :: id in ids ==> Sorting.StrLe(id, last.value)
  {
    if ids == [] then None
    else
      Sorting.StrLeTotal(ids[0], ids[0]);
      match LastId(ids[1..])
      case None =>
        assert ids == [ids[0]];
        Some(ids[0])
      case Some(m) =>
        Sorting.StrLeTotal(m, ids[0]);
        assert forall id :: id in ids ==> id == ids[0] || id in ids[1..];
        if Sorting.StrLe(m, ids[0]) then
          assert forall id :: id in ids[1..] ==> Sorting.StrLe(id, m) && Sorting.StrLe(id, ids[0]) by {
            forall id | id in ids[1..] ensures Sorting.StrLe(id, ids[0]) {
              Sorting.StrLeTransitive(id, m, ids[0]);
            }
          }
          Some(ids[0])
        else Some(m)
  }

  /** `s.slice(k)` for `k >= 0`. */
  function Drop(s: string, k: nat): (r: string)
    ensures k <= |s| ==> r == s[k..]
    ensures k > |s| ==> r == ""
  {
    if k <= |s| then s[k..] else ""
  }

  /** `` `${prefix}${parseInt(last.slice(prefix.length)) + 1}` `` for a last id,
      the seed otherwise; a suffix that does not parse prints `NaN`. */
  function NextIdAsWritten(prefix: string, seed: string, last: Option<string>): string {
    match last
    case None => seed
    case Some(id) =>
      match ParseInt(Drop(id, |prefix|))
      case Some(n) => prefix + IntToString(n + 1)
      case None => prefix + "NaN"
  }

  /** Generating from an id made by the scheme continues the numbering. */
  lemma NextIdContinues(prefix: string, seed: string, n: int)
    ensures NextIdAsWritten(prefix, seed, Some(prefix + IntToString(n))) == prefix + IntToString(n + 1)
  {
    assert Drop(prefix + IntToString(n), |prefix|) == IntToString(n);
    ParseIntOfIntToString(n);
  }

  /** After `P9999` the next id is `P10000`; but `P9999` sorts after `P10000`,
      so once both exist every later patient is offered `P10000` again. */
  lemma LastIdRepeats()
    ensures var ids := ["P" + IntToString(9999), "P" + IntToString(10000)];
            NextIdAsWritten("P", "P1001", LastId(ids)) == ids[1]
  {
    var a := "P" + IntToString(9999);
    var b := "P" + IntToString(10000);
    assert NatToString(9) == "9";
    assert NatToString(99) == "99";
    assert NatToString(999) == "999";
    assert NatToString(9999) == "9999";
    assert NatToString(1) == "1";
    assert NatToString(10) == "10";
    assert NatToString(100) == "100";
    assert NatToString(1000) == "1000";
    assert NatToString(10000) == "10000";
    assert a == "P9999" && b == "P10000";
    assert a[1..] == "9999" && b[1..] == "10000";
    assert !Sorting.StrLe(a[1..], b[1..]);
    assert a[0] == b[0];
    assert Sorting.StrLe(a, b) <==> Sorting.StrLe(a[1..], b[1..]);
    assert !Sorting.StrLe(a, b);
    assert Sorting.StrLe(b, a);
    assert LastId([b]) == Some(b);
    assert [a, b][1..] == [b];
    assert LastId([a, b]) == Some(a);
    NextIdContinues("P", "P1001", 9999);
  }

  // ---------------------------------------------------------------------------
  // Numbering by the greatest number in use

  /** The number an id carries after the prefix, if it parses. */
  function Number(prefix: string, id: string): Option<int> {
    ParseInt(Drop(id, |prefix|))
  }

  /** The greatest number carried by the ids, and at least `floor`. */
  function MaxNumber(prefix: string, ids: seq<string>, floor: int): (m: int)
    ensures m >= floor
    ensures forall id :: id in ids && Number(prefix, id).Some? ==> Number(prefix, id).value <= m
  {
    if ids == [] then floor
    else
      var rest := MaxNumber(prefix, ids[1..], floor);
      assert forall id :: id in ids ==> id == ids[0] || id in ids[1..];
      match Number(prefix, ids[0])
      case Some(n) => if n > rest then n else rest
      case None => rest
  }

  /** The successor of the greatest number in use, starting after `floor`. */
  function FreshId(prefix: string, ids: seq<string>, floor: int): (id: string)
    ensures ids == [] ==> id == prefix + IntToString(floor + 1)
    ensures id !in ids
  {
    var m := MaxNumber(prefix, ids, floor);
    var id := prefix + IntToString(m + 1);
    assert Drop(id, |prefix|) == IntToString(m + 1);
    ParseIntOfIntToString(m + 1);
    id
  }
}
