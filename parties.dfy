/**
 * The parliament's parties and the coalition arithmetic over them: the strength
 * of a coalition (the sum of its parties' poll shares), the majority test, the
 * mean pairwise compatibility, and the enumeration of all two- and three-party
 * coalitions strong enough, strongest first.
 *
 * `calculateCoalitionCompatibility` and `getPossibleCoalitions` accumulate in
 * nested loops and are methods, each proved against recursive specification
 * functions that follow the loops' order.
 */
module Parties {
  import opened Types
  import opened Sequences

  datatype Ideology = FarLeft | Left | CenterLeft | Center | CenterRight | Right | FarRight

  /** The parties of the record, one constructor per key. */
  datatype PartyId = Linke | Liberale | Sozialdemokraten | Progressive | Konservative | Rechte | Gruene | Sonstige

  /** A party with its poll share and its relationship to other parties (0..100).
      Programme, demands and colours are not carried. */
  datatype Party = Party(id: PartyId, ideology: Ideology, popularity: real, relationships: map<PartyId, real>)

  /** The key under which a party is declared. */
  function Key(p: PartyId): string
  {
    match p
    case Linke => "linke"
    case Liberale => "liberale"
    case Sozialdemokraten => "sozialdemokraten"
    case Progressive => "progressive"
    case Konservative => "konservative"
    case Rechte => "rechte"
    case Gruene => "gruene"
    case Sonstige => "sonstige"
  }

  /** The record `initialParties`, entry by entry. */
  function PartyOf(p: PartyId): (r: Party)
    ensures r.id == p
  {
    match p
    case Linke => Party(Linke, FarLeft, 5.0,
      map[Sozialdemokraten := 45.0, Liberale := 15.0, Konservative := 10.0, Rechte := 5.0, Gruene := 60.0])
    case Liberale => Party(Liberale, CenterRight, 15.0,
      map[Linke := 15.0, Sozialdemokraten := 50.0, Konservative := 70.0, Rechte := 25.0, Gruene := 40.0])
    case Sozialdemokraten => Party(Sozialdemokraten, CenterLeft, 11.0,
      map[Linke := 45.0, Liberale := 50.0, Konservative := 40.0, Rechte := 10.0, Gruene := 75.0])
    case Progressive => Party(Progressive, Center, 25.0,
      map[Linke := 25.0, Liberale := 70.0, Sozialdemokraten := 65.0, Konservative := 45.0, Rechte := 20.0,
          Gruene := 80.0])
    case Konservative => Party(Konservative, CenterRight, 17.0,
      map[Linke := 10.0, Liberale := 70.0, Sozialdemokraten := 40.0, Rechte := 50.0, Gruene := 30.0])
    case Rechte => Party(Rechte, FarRight, 14.0,
      map[Linke := 5.0, Liberale := 25.0, Sozialdemokraten := 10.0, Konservative := 50.0, Gruene := 0.0])
    case Gruene => Party(Gruene, CenterLeft, 10.0,
      map[Linke := 60.0, Liberale := 40.0, Sozialdemokraten := 75.0, Konservative := 30.0, Rechte := 0.0])
    case Sonstige => Party(Sonstige, Center, 3.0,
      map[Linke := 50.0, Liberale := 50.0, Sozialdemokraten := 50.0, Konservative := 50.0, Rechte := 50.0,
          Gruene := 50.0])
  }

  /** The parties in declaration order, and their keys (`Object.keys(initialParties)`). */
  const Ids: seq<PartyId> := [Linke, Liberale, Sozialdemokraten, Progressive, Konservative, Rechte, Gruene, Sonstige]
  const Keys: seq<string> := ["linke", "liberale", "sozialdemokraten", "progressive",
                              "konservative", "rechte", "gruene", "sonstige"]

  /** Where a party stands in the declaration order. */
  function Position(p: PartyId): (r: int)
    ensures 0 <= r < |Ids| && Ids[r] == p
  {
    match p
    case Linke => 0
    case Liberale => 1
    case Sozialdemokraten => 2
    case Progressive => 3
    case Konservative => 4
    case Rechte => 5
    case Gruene => 6
    case Sonstige => 7
  }

  /** Eight parties, each declared once, under distinct keys. */
  lemma KeysFacts()
    ensures |Keys| == |Ids| == 8 && Distinct(Ids) && Distinct(Keys)
    ensures forall i :: 0 <= i < |Ids| ==> Keys[i] == Key(Ids[i])
  {
  }

  /** Every recorded relationship lies in 0..100. */
  lemma RelationshipsInRange(p: PartyId, q: PartyId)
    ensures q in PartyOf(p).relationships ==> 0.0 <= PartyOf(p).relationships[q] <= 100.0
  {
  }

  /** The first party in `ps` declared under the key `id`. */
  function FindParty(ps: seq<PartyId>, id: string): Option<PartyId>
  {
    if ps == [] then None
    else if Key(ps[0]) == id then Some(ps[0])
    else FindParty(ps[1..], id)
  }

  lemma {:induction false} FindPartySound(ps: seq<PartyId>, id: string)
    ensures FindParty(ps, id).Some? ==> FindParty(ps, id).value in ps && Key(FindParty(ps, id).value) == id
    ensures FindParty(ps, id).None? ==> forall q :: q in ps ==> Key(q) != id
  {
    if ps != [] && Key(ps[0]) != id {
      FindPartySound(ps[1..], id);
      assert ps == [ps[0]] + ps[1..];
    }
  }

  /** The party a key names, if it names one. */
  function ParseKey(id: string): Option<PartyId>
  {
    FindParty(Ids, id)
  }

  /** No two parties share a key. */
  lemma KeyInjective(p: PartyId, q: PartyId)
    requires Key(p) == Key(q)
    ensures p == q
  {
    KeysFacts();
    var i, j := Position(p), Position(q);
    assert Keys[i] == Keys[j];
  }

  /** Every party's own key names it. */
  lemma KeyParses(p: PartyId)
    ensures ParseKey(Key(p)) == Some(p)
  {
    FindPartySound(Ids, Key(p));
    assert p in Ids by { var i := Position(p); }
    KeyInjective(ParseKey(Key(p)).value, p);
  }

  /** A string names a party exactly when it is one of the keys, and then it is
      that party's key. */
  lemma ParseKeySound(id: string)
    ensures ParseKey(id).Some? <==> id in Keys
    ensures ParseKey(id).Some? ==> Key(ParseKey(id).value) == id
  {
    KeysFacts();
    FindPartySound(Ids, id);
    if ParseKey(id).Some? {
      var i := Position(ParseKey(id).value);
      assert Keys[i] == id;
    }
  }

  /** `getPartyById`: the party declared under the key `id`, if any. */
  function GetPartyById(id: string): (r: Option<Party>)
    ensures r.Some? ==> r.value == PartyOf(r.value.id)
  {
    match ParseKey(id)
    case None => None
    case Some(p) => Some(PartyOf(p))
  }

  /** Exactly the declared keys name a party, each the party declared under it. */
  lemma FoundIffKey(id: string)
    ensures GetPartyById(id).Some? <==> id in Keys
    ensures GetPartyById(id).Some? ==> Key(GetPartyById(id).value.id) == id
  {
    ParseKeySound(id);
  }

  /** Each key finds the party declared under it. */
  lemma PartyAt(p: PartyId)
    ensures GetPartyById(Key(p)) == Some(PartyOf(p))
  {
    KeyParses(p);
  }

  // ---------------------------------------------------------------------------
  // Strength and majority

  /** The poll share an id contributes: its party's, or 0 for an unknown id. */
  function Share(id: string): real
  {
    match GetPartyById(id)
    case None => 0.0
    case Some(p) => p.popularity
  }

  /** `calculateCoalitionStrength`: the shares summed left to right. */
  function CoalitionStrength(ids: seq<string>): real
  {
    if ids == [] then 0.0 else CoalitionStrength(ids[..|ids| - 1]) + Share(ids[|ids| - 1])
  }

  /** Strength adds up over concatenation, so every occurrence of an id counts and
      an unknown id counts 0. */
  lemma {:induction false} StrengthConcat(a: seq<string>, b: seq<string>)
    ensures CoalitionStrength(a + b) == CoalitionStrength(a) + CoalitionStrength(b)
    decreases |b|
  {
    if b == [] {
      assert a + b == a;
    } else {
      var n := |b| - 1;
      assert (a + b)[..|a + b| - 1] == a + b[..n];
      assert (a + b)[|a + b| - 1] == b[n];
      StrengthConcat(a, b[..n]);
    }
  }

  /** One id more adds its share. */
  lemma StrengthStep(ids: seq<string>, k: int)
    requires 0 <= k < |ids|
    ensures CoalitionStrength(ids[..k + 1]) == CoalitionStrength(ids[..k]) + Share(ids[k])
  {
    assert ids[..k + 1][..k] == ids[..k];
  }

  /** The governing coalition of 2025: progressive, social democratic and liberal. */
  const Governing: seq<string> := [Key(Progressive), Key(Sozialdemokraten), Key(Liberale)]

  /** A single key contributes its party's share. */
  lemma StrengthSingle(p: PartyId)
    ensures CoalitionStrength([Key(p)]) == PartyOf(p).popularity
  {
    assert [Key(p)][..0] == [];
    PartyAt(p);
  }

  /** `canFormCoalition`: a majority is at least half of the shares. */
  predicate CanFormCoalition(ids: seq<string>)
  {
    CoalitionStrength(ids) >= 50.0
  }

  /** The shares of all parties add up to 100, and the governing coalition of
      progressive, social democratic and liberal parties holds 51 of them. */
  lemma Shares()
    ensures CoalitionStrength(Keys) == 100.0
    ensures CoalitionStrength(Governing) == 51.0
    ensures CanFormCoalition(Governing)
  {
    KeysFacts();
    forall k | 0 <= k < |Keys|
      ensures Share(Keys[k]) == PartyOf(Ids[k]).popularity
    {
      PartyAt(Ids[k]);
    }
    StrengthStep(Keys, 0); StrengthStep(Keys, 1); StrengthStep(Keys, 2); StrengthStep(Keys, 3);
    StrengthStep(Keys, 4); StrengthStep(Keys, 5); StrengthStep(Keys, 6); StrengthStep(Keys, 7);
    assert Keys[..8] == Keys;
    PartyAt(Progressive); PartyAt(Sozialdemokraten); PartyAt(Liberale);
    StrengthStep(Governing, 0); StrengthStep(Governing, 1); StrengthStep(Governing, 2);
    assert Governing[..3] == Governing;
  }

  /** `getPartiesByIdeology`, in declaration order. */
  function FilterByIdeology(ids: seq<PartyId>, ideology: Ideology): (r: seq<Party>)
    ensures forall x :: x in r <==> x.id in ids && x == PartyOf(x.id) && x.ideology == ideology
  {
    if ids == [] then []
    else
      var n := |ids| - 1;
      var rest := FilterByIdeology(ids[..n], ideology);
      assert ids == ids[..n] + [ids[n]];
      if PartyOf(ids[n]).ideology == ideology then rest + [PartyOf(ids[n])] else rest
  }

  function GetPartiesByIdeology(ideology: Ideology): (r: seq<Party>)
    ensures forall p :: PartyOf(p) in r <==> PartyOf(p).ideology == ideology
    ensures forall x :: x in r ==> x == PartyOf(x.id)
  {
    KeysFacts();
    FilterByIdeology(Ids, ideology)
  }

  // ---------------------------------------------------------------------------
  // Compatibility

  /** How the first party sees the second; a missing or zero entry reads as 50. */
  function Relationship(p1: Party, p2: Party): (r: real)
    ensures p2.id !in p1.relationships || p1.relationships[p2.id] == 0.0 ==> r == 50.0
    ensures p2.id in p1.relationships && p1.relationships[p2.id] != 0.0 ==> r == p1.relationships[p2.id]
  {
    if p2.id in p1.relationships && p1.relationships[p2.id] != 0.0 then p1.relationships[p2.id] else 50.0
  }

  /** A running sum of relationships and the number of pairs summed. */
  datatype Tally = Tally(total: real, pairs: int)

  function Add(a: Tally, b: Tally): Tally
  {
    Tally(a.total + b.total, a.pairs + b.pairs)
  }

  /** The pair (i, k), counted when both ids are known. */
  function PairTally(ids: seq<string>, i: int, k: int): Tally
    requires 0 <= i < |ids| && 0 <= k < |ids|
  {
    match (GetPartyById(ids[i]), GetPartyById(ids[k]))
    case (Some(p1), Some(p2)) => Tally(Relationship(p1, p2), 1)
    case _ => Tally(0.0, 0)
  }

  /** The pairs (i, k) with i < k < j: the inner loop. */
  function RowTally(ids: seq<string>, i: int, j: int): Tally
    requires 0 <= i < |ids| && j <= |ids|
    decreases j
  {
    if j <= i + 1 then Tally(0.0, 0) else Add(RowTally(ids, i, j - 1), PairTally(ids, i, j - 1))
  }

  /** The rows 0..i-1: the outer loop. */
  function RowsTally(ids: seq<string>, i: int): Tally
    requires 0 <= i <= |ids|
  {
    if i == 0 then Tally(0.0, 0) else Add(RowsTally(ids, i - 1), RowTally(ids, i - 1, |ids|))
  }

  /** The mean relationship over all pairs of known ids, 0 when there is none. */
  function Compatibility(ids: seq<string>): real
  {
    if |ids| < 2 then 0.0
    else
      var t := RowsTally(ids, |ids|);
      if t.pairs > 0 then t.total / t.pairs as real else 0.0
  }

  /** The inner loop of `calculateCoalitionCompatibility`: row i added to the sums. */
  method AddRow(ids: seq<string>, i: int, total: real, pairs: int) returns (total': real, pairs': int)
    requires 0 <= i < |ids|
    ensures Tally(total', pairs') == Add(Tally(total, pairs), RowTally(ids, i, |ids|))
  {
    total', pairs' := total, pairs;
    var j := i + 1;
    while j < |ids|
      invariant i + 1 <= j <= |ids|
      invariant Tally(total', pairs') == Add(Tally(total, pairs), RowTally(ids, i, j))
    {
      assert RowTally(ids, i, j + 1) == Add(RowTally(ids, i, j), PairTally(ids, i, j));
      var party1 := GetPartyById(ids[i]);
      var party2 := GetPartyById(ids[j]);
      if party1.Some? && party2.Some? {
        var compatibility := Relationship(party1.value, party2.value);
        total' := total' + compatibility;
        pairs' := pairs' + 1;
      }
      j := j + 1;
    }
  }

  /** `calculateCoalitionCompatibility`. */
  method CalculateCoalitionCompatibility(ids: seq<string>) returns (r: real)
    ensures r == Compatibility(ids)
  {
    if |ids| < 2 {
      return 0.0;
    }
    var totalCompatibility := 0.0;
    var pairCount := 0;
    var i := 0;
    while i < |ids|
      invariant 0 <= i <= |ids|
      invariant Tally(totalCompatibility, pairCount) == RowsTally(ids, i)
    {
      totalCompatibility, pairCount := AddRow(ids, i, totalCompatibility, pairCount);
      i := i + 1;
    }
    r := if pairCount > 0 then totalCompatibility / pairCount as real else 0.0;
  }

  /** Every pair's relationship lies in 0..100. */
  lemma RelationshipBounds(id: string, p2: Party)
    requires GetPartyById(id).Some?
    ensures 0.0 <= Relationship(GetPartyById(id).value, p2) <= 100.0
  {
    RelationshipsInRange(GetPartyById(id).value.id, p2.id);
  }

  /** A running sum of relationships, each in 0..100. */
  predicate Bounded(t: Tally)
  {
    0.0 <= t.total <= 100.0 * t.pairs as real
  }

  lemma AddBounded(a: Tally, b: Tally)
    requires Bounded(a) && Bounded(b)
    ensures Bounded(Add(a, b))
  {
    assert (a.pairs + b.pairs) as real == a.pairs as real + b.pairs as real;
  }

  /** One pair adds a relationship in 0..100, or nothing. */
  lemma PairBounds(ids: seq<string>, i: int, k: int)
    requires 0 <= i < |ids| && 0 <= k < |ids|
    ensures Bounded(PairTally(ids, i, k))
  {
    var p1, p2 := GetPartyById(ids[i]), GetPartyById(ids[k]);
    if p1.Some? && p2.Some? {
      RelationshipBounds(ids[i], p2.value);
      assert PairTally(ids, i, k) == Tally(Relationship(p1.value, p2.value), 1);
    } else {
      assert PairTally(ids, i, k) == Tally(0.0, 0);
    }
  }

  lemma {:induction false} RowBounds(ids: seq<string>, i: int, j: int)
    requires 0 <= i < |ids| && j <= |ids|
    ensures Bounded(RowTally(ids, i, j))
    decreases j
  {
    if j > i + 1 {
      RowBounds(ids, i, j - 1);
      PairBounds(ids, i, j - 1);
      AddBounded(RowTally(ids, i, j - 1), PairTally(ids, i, j - 1));
    }
  }

  lemma {:induction false} RowsBounds(ids: seq<string>, i: int)
    requires 0 <= i <= |ids|
    ensures Bounded(RowsTally(ids, i))
  {
    if i > 0 {
      RowsBounds(ids, i - 1);
      RowBounds(ids, i - 1, |ids|);
      AddBounded(RowsTally(ids, i - 1), RowTally(ids, i - 1, |ids|));
    }
  }

  /** A total of at most 100 per pair averages to at most 100. */
  lemma MeanBound(total: real, n: real)
    requires n > 0.0 && 0.0 <= total <= 100.0 * n
    ensures 0.0 <= total / n <= 100.0
  {
    var q := total / n;
    assert q * n == total;
  }

  /** The compatibility is a mean of relationships and so lies in 0..100. */
  lemma CompatibilityBounds(ids: seq<string>)
    ensures 0.0 <= Compatibility(ids) <= 100.0
  {
    if |ids| >= 2 {
      var t := RowsTally(ids, |ids|);
      RowsBounds(ids, |ids|);
      if t.pairs > 0 {
        MeanBound(t.total, t.pairs as real);
      }
    }
  }

  lemma {:induction false} RowNoPairs(ids: seq<string>, i: int, j: int)
    requires 0 <= i < |ids| && j <= |ids|
    requires GetPartyById(ids[i]).None?
    ensures RowTally(ids, i, j) == Tally(0.0, 0)
    decreases j
  {
    if j > i + 1 {
      RowNoPairs(ids, i, j - 1);
      assert PairTally(ids, i, j - 1) == Tally(0.0, 0);
    }
  }

  lemma {:induction false} RowsAtMostOneKnown(ids: seq<string>, i: int, known: int)
    requires 0 <= i <= |ids| && 0 <= known < |ids|
    requires forall k :: 0 <= k < |ids| && k != known ==> GetPartyById(ids[k]).None?
    ensures RowsTally(ids, i).pairs == 0
  {
    if i > 0 {
      RowsAtMostOneKnown(ids, i - 1, known);
      if i - 1 != known {
        RowNoPairs(ids, i - 1, |ids|);
      } else {
        RowKnownAlone(ids, i - 1, |ids|);
      }
    }
  }

  lemma {:induction false} RowKnownAlone(ids: seq<string>, i: int, j: int)
    requires 0 <= i < |ids| && j <= |ids|
    requires forall k :: i < k < |ids| ==> GetPartyById(ids[k]).None?
    ensures RowTally(ids, i, j).pairs == 0
    decreases j
  {
    if j > i + 1 {
      RowKnownAlone(ids, i, j - 1);
      assert GetPartyById(ids[j - 1]).None?;
      assert PairTally(ids, i, j - 1).pairs == 0;
    }
  }

  /** Fewer than two ids, or fewer than two known ones, give compatibility 0. */
  lemma CompatibilityWithoutPairs(ids: seq<string>, known: int)
    requires 0 <= known
    requires forall k :: 0 <= k < |ids| && k != known ==> GetPartyById(ids[k]).None?
    ensures Compatibility(ids) == 0.0
  {
    if |ids| >= 2 {
      if known < |ids| {
        RowsAtMostOneKnown(ids, |ids|, known);
      } else {
        RowsAtMostOneKnown(ids, |ids|, 0);
      }
    }
  }

  /** A pair of declared keys counts the first party's view of the second. */
  lemma PairOfParties(ids: seq<string>, i: int, k: int, p: PartyId, q: PartyId)
    requires 0 <= i < |ids| && 0 <= k < |ids| && ids[i] == Key(p) && ids[k] == Key(q)
    ensures PairTally(ids, i, k) == Tally(Relationship(PartyOf(p), PartyOf(q)), 1)
  {
    PartyAt(p);
    PartyAt(q);
  }

  lemma MeanOfThree(total: real)
    ensures total / 3 as real == total / 3.0
  {
  }

  /** How the partners of the governing coalition see each other. */
  lemma GoverningViews()
    ensures Relationship(PartyOf(Progressive), PartyOf(Sozialdemokraten)) == 65.0
    ensures Relationship(PartyOf(Progressive), PartyOf(Liberale)) == 70.0
    ensures Relationship(PartyOf(Sozialdemokraten), PartyOf(Liberale)) == 50.0
  {
    var progressive := PartyOf(Progressive).relationships;
    assert Sozialdemokraten in progressive && progressive[Sozialdemokraten] == 65.0;
    assert Liberale in progressive && progressive[Liberale] == 70.0;
    var sozialdemokraten := PartyOf(Sozialdemokraten).relationships;
    assert Liberale in sozialdemokraten && sozialdemokraten[Liberale] == 50.0;
  }

  /** Three ids average their three pairs. */
  lemma CompatibilityOfThree(ids: seq<string>, x: real, y: real, z: real)
    requires |ids| == 3
    requires PairTally(ids, 0, 1) == Tally(x, 1) && PairTally(ids, 0, 2) == Tally(y, 1)
    requires PairTally(ids, 1, 2) == Tally(z, 1)
    ensures Compatibility(ids) == (x + y + z) / 3.0
  {
    assert RowTally(ids, 0, 3) == Tally(x + y, 2);
    assert RowTally(ids, 1, 3) == Tally(z, 1);
    assert RowTally(ids, 2, 3) == Tally(0.0, 0);
    assert RowsTally(ids, 1) == Tally(x + y, 2);
    assert RowsTally(ids, 2) == Tally(x + y + z, 3);
    assert RowsTally(ids, 3) == Tally(x + y + z, 3);
    MeanOfThree(x + y + z);
  }

  /** The governing coalition: (65 + 70 + 50) / 3, each pair read from the side of
      the party named first. */
  lemma GoverningCompatibility()
    ensures Compatibility(Governing) == 185.0 / 3.0
  {
    var g := Governing;
    GoverningViews();
    PairOfParties(g, 0, 1, Progressive, Sozialdemokraten);
    PairOfParties(g, 0, 2, Progressive, Liberale);
    PairOfParties(g, 1, 2, Sozialdemokraten, Liberale);
    CompatibilityOfThree(g, 65.0, 70.0, 50.0);
  }

  /** The far right and the greens record 0 for each other, which reads as 50. */
  lemma ZeroRelationshipReadsAsFifty()
    ensures Compatibility([Key(Rechte), Key(Gruene)]) == 50.0
  {
    var h := [Key(Rechte), Key(Gruene)];
    assert Relationship(PartyOf(Rechte), PartyOf(Gruene)) == 50.0;
    assert PairTally(h, 0, 1) == Tally(50.0, 1) by { PairOfParties(h, 0, 1, Rechte, Gruene); }
    assert RowTally(h, 0, 2) == Tally(50.0, 1);
    assert RowTally(h, 1, 2) == Tally(0.0, 0);
    assert RowsTally(h, 2) == Tally(50.0, 1);
  }

  // ---------------------------------------------------------------------------
  // Possible coalitions

  /** The party keys without the catch-all "sonstige", in declaration order. */
  function Without(ids: seq<string>, excluded: string): (r: seq<string>)
    ensures forall k :: k in r <==> k in ids && k != excluded
    ensures Distinct(ids) ==> Distinct(r)
  {
    if ids == [] then []
    else
      var n := |ids| - 1;
      var rest := Without(ids[..n], excluded);
      assert ids == ids[..n] + [ids[n]];
      assert Distinct(ids) ==> Distinct(ids[..n]) && ids[n] !in ids[..n];
      if ids[n] != excluded then rest + [ids[n]] else rest
  }

  function EligibleParties(): (r: seq<string>)
    ensures Distinct(r)
    ensures forall k :: k in r <==> k in Keys && k != "sonstige"
  {
    KeysFacts();
    Without(Keys, "sonstige")
  }

  ghost predicate IsPair(ps: seq<string>, c: seq<string>, a: int, b: int)
  {
    0 <= a < b < |ps| && c == [ps[a], ps[b]]
  }

  ghost predicate IsTriple(ps: seq<string>, c: seq<string>, a: int, b: int, d: int)
  {
    0 <= a < b < d < |ps| && c == [ps[a], ps[b], ps[d]]
  }

  /** A coalition the enumeration is to list: two or three parties taken in order
      from `ps`, among the `strong` ones. */
  ghost predicate Candidate(ps: seq<string>, strong: iset<seq<string>>, c: seq<string>)
  {
    ((exists a, b :: IsPair(ps, c, a, b)) || (exists a, b, d :: IsTriple(ps, c, a, b, d))) &&
    c in strong
  }

  predicate NoDuplicates(cs: seq<seq<string>>)
  {
    forall x, y :: 0 <= x < y < |cs| ==> cs[x] != cs[y]
  }

  lemma NoDuplicatesConcat(a: seq<seq<string>>, b: seq<seq<string>>)
    requires NoDuplicates(a) && NoDuplicates(b)
    requires forall c :: c in a ==> c !in b
    ensures NoDuplicates(a + b)
  {
    forall x, y | 0 <= x < y < |a + b|
      ensures (a + b)[x] != (a + b)[y]
    {
      if y >= |a| && x < |a| {
        assert (a + b)[x] in a && (a + b)[y] in b;
      } else if x >= |a| {
        assert (a + b)[x] == b[x - |a|] && (a + b)[y] == b[y - |a|];
      }
    }
  }

  /** The coalitions that reach `minStrength`. */
  ghost function StrongEnough(minStrength: real): iset<seq<string>>
  {
    iset c | CoalitionStrength(c) >= minStrength
  }

  /** Pairs (i, k) with i < k < j that are among the `strong` ones: the inner loop of the
      two-party enumeration. */
  ghost function PairRow(ps: seq<string>, strong: iset<seq<string>>, i: int, j: int): seq<seq<string>>
    requires 0 <= i < |ps| && j <= |ps|
    decreases j
  {
    if j <= i + 1 then []
    else if [ps[i], ps[j - 1]] in strong then PairRow(ps, strong, i, j - 1) + [[ps[i], ps[j - 1]]]
    else PairRow(ps, strong, i, j - 1)
  }

  /** All `strong` pairs with a first index below i: the outer loop. */
  ghost function Pairs(ps: seq<string>, strong: iset<seq<string>>, i: int): seq<seq<string>>
    requires 0 <= i <= |ps|
  {
    if i == 0 then [] else Pairs(ps, strong, i - 1) + PairRow(ps, strong, i - 1, |ps|)
  }

  /** Triples (i, j, k) with j < k < l: the innermost loop. */
  ghost function TripleCell(ps: seq<string>, strong: iset<seq<string>>, i: int, j: int, l: int): seq<seq<string>>
    requires 0 <= i < j < |ps| && l <= |ps|
    decreases l
  {
    if l <= j + 1 then []
    else if [ps[i], ps[j], ps[l - 1]] in strong then TripleCell(ps, strong, i, j, l - 1) + [[ps[i], ps[j], ps[l - 1]]]
    else TripleCell(ps, strong, i, j, l - 1)
  }

  /** Triples (i, k, _) with i < k < j: the middle loop. */
  ghost function TripleRow(ps: seq<string>, strong: iset<seq<string>>, i: int, j: int): seq<seq<string>>
    requires 0 <= i < |ps| && j <= |ps|
    decreases j
  {
    if j <= i + 1 then []
    else TripleRow(ps, strong, i, j - 1) + TripleCell(ps, strong, i, j - 1, |ps|)
  }

  /** All `strong` triples with a first index below i: the outer loop. */
  ghost function Triples(ps: seq<string>, strong: iset<seq<string>>, i: int): seq<seq<string>>
    requires 0 <= i <= |ps|
  {
    if i == 0 then [] else Triples(ps, strong, i - 1) + TripleRow(ps, strong, i - 1, |ps|)
  }

  // Each coalition the loops append is one of the candidates ...

  lemma {:induction false} PairRowSound(ps: seq<string>, strong: iset<seq<string>>, i: int, j: int, c: seq<string>)
    requires 0 <= i < |ps| && j <= |ps| && c in PairRow(ps, strong, i, j)
    ensures c in strong && exists b :: i < b < j && IsPair(ps, c, i, b)
    decreases j
  {
    var rest := PairRow(ps, strong, i, j - 1);
    if c in rest {
      PairRowSound(ps, strong, i, j - 1, c);
    } else {
      assert IsPair(ps, c, i, j - 1);
    }
  }

  lemma {:induction false} PairsSound(ps: seq<string>, strong: iset<seq<string>>, i: int, c: seq<string>)
    requires 0 <= i <= |ps| && c in Pairs(ps, strong, i)
    ensures c in strong && exists a, b :: a < i && IsPair(ps, c, a, b)
  {
    if c in Pairs(ps, strong, i - 1) {
      PairsSound(ps, strong, i - 1, c);
    } else {
      PairRowSound(ps, strong, i - 1, |ps|, c);
    }
  }

  lemma {:induction false} TripleCellSound(ps: seq<string>, strong: iset<seq<string>>, i: int, j: int, l: int, c: seq<string>)
    requires 0 <= i < j < |ps| && l <= |ps| && c in TripleCell(ps, strong, i, j, l)
    ensures c in strong && exists d :: j < d < l && IsTriple(ps, c, i, j, d)
    decreases l
  {
    if c in TripleCell(ps, strong, i, j, l - 1) {
      TripleCellSound(ps, strong, i, j, l - 1, c);
    } else {
      assert IsTriple(ps, c, i, j, l - 1);
    }
  }

  lemma {:induction false} TripleRowSound(ps: seq<string>, strong: iset<seq<string>>, i: int, j: int, c: seq<string>)
    requires 0 <= i < |ps| && j <= |ps| && c in TripleRow(ps, strong, i, j)
    ensures c in strong && exists b, d :: b < j && IsTriple(ps, c, i, b, d)
    decreases j
  {
    if c in TripleRow(ps, strong, i, j - 1) {
      TripleRowSound(ps, strong, i, j - 1, c);
    } else {
      TripleCellSound(ps, strong, i, j - 1, |ps|, c);
    }
  }

  lemma {:induction false} TriplesSound(ps: seq<string>, strong: iset<seq<string>>, i: int, c: seq<string>)
    requires 0 <= i <= |ps| && c in Triples(ps, strong, i)
    ensures c in strong && exists a, b, d :: a < i && IsTriple(ps, c, a, b, d)
  {
    if c in Triples(ps, strong, i - 1) {
      TriplesSound(ps, strong, i - 1, c);
    } else {
      TripleRowSound(ps, strong, i - 1, |ps|, c);
    }
  }

  // ... and each candidate is appended, by the iteration of its indices.

  lemma {:induction false} PairRowComplete(ps: seq<string>, strong: iset<seq<string>>, i: int, j: int, b: int, c: seq<string>)
    requires 0 <= i < |ps| && j <= |ps| && i < b < j && IsPair(ps, c, i, b) && c in strong
    ensures c in PairRow(ps, strong, i, j)
    decreases j
  {
    if b < j - 1 {
      PairRowComplete(ps, strong, i, j - 1, b, c);
    }
  }

  lemma {:induction false} PairsComplete(ps: seq<string>, strong: iset<seq<string>>, i: int, a: int, b: int, c: seq<string>)
    requires 0 <= i <= |ps| && a < i && IsPair(ps, c, a, b) && c in strong
    ensures c in Pairs(ps, strong, i)
  {
    if a < i - 1 {
      PairsComplete(ps, strong, i - 1, a, b, c);
    } else {
      PairRowComplete(ps, strong, i - 1, |ps|, b, c);
    }
  }

  lemma {:induction false} TripleCellComplete(ps: seq<string>, strong: iset<seq<string>>, i: int, j: int, l: int, d: int, c: seq<string>)
    requires 0 <= i < j < |ps| && l <= |ps| && j < d < l && IsTriple(ps, c, i, j, d) && c in strong
    ensures c in TripleCell(ps, strong, i, j, l)
    decreases l
  {
    if d < l - 1 {
      TripleCellComplete(ps, strong, i, j, l - 1, d, c);
    }
  }

  lemma {:induction false} TripleRowComplete(ps: seq<string>, strong: iset<seq<string>>, i: int, j: int, b: int, d: int, c: seq<string>)
    requires 0 <= i < |ps| && j <= |ps| && b < j && IsTriple(ps, c, i, b, d) && c in strong
    ensures c in TripleRow(ps, strong, i, j)
    decreases j
  {
    if b < j - 1 {
      TripleRowComplete(ps, strong, i, j - 1, b, d, c);
    } else {
      TripleCellComplete(ps, strong, i, b, |ps|, d, c);
    }
  }

  lemma {:induction false} TriplesComplete(ps: seq<string>, strong: iset<seq<string>>, i: int, a: int, b: int, d: int, c: seq<string>)
    requires 0 <= i <= |ps| && a < i && IsTriple(ps, c, a, b, d) && c in strong
    ensures c in Triples(ps, strong, i)
  {
    assert Triples(ps, strong, i) == Triples(ps, strong, i - 1) + TripleRow(ps, strong, i - 1, |ps|);
    if a < i - 1 {
      TriplesComplete(ps, strong, i - 1, a, b, d, c);
    } else {
      TripleRowComplete(ps, strong, i - 1, |ps|, b, d, c);
    }
  }

  // With distinct parties no coalition is appended twice.

  lemma {:induction false} PairRowOnce(ps: seq<string>, strong: iset<seq<string>>, i: int, j: int)
    requires 0 <= i < |ps| && j <= |ps| && Distinct(ps)
    ensures NoDuplicates(PairRow(ps, strong, i, j))
    decreases j
  {
    if j > i + 1 {
      PairRowOnce(ps, strong, i, j - 1);
      var rest, c := PairRow(ps, strong, i, j - 1), [ps[i], ps[j - 1]];
      forall x | x in rest
        ensures x != c
      {
        PairRowSound(ps, strong, i, j - 1, x);
        var b :| i < b < j - 1 && IsPair(ps, x, i, b);
        assert x[1] != c[1];
      }
      if c in strong {
        NoDuplicatesConcat(rest, [c]);
      }
    }
  }

  lemma PairsApart(ps: seq<string>, strong: iset<seq<string>>, i: int)
    requires 0 <= i < |ps| && Distinct(ps)
    ensures forall x :: x in Pairs(ps, strong, i) ==> x !in PairRow(ps, strong, i, |ps|)
  {
    var rest, row := Pairs(ps, strong, i), PairRow(ps, strong, i, |ps|);
    forall y | y in row
      ensures |y| == 2 && y[0] == ps[i]
    {
      PairRowSound(ps, strong, i, |ps|, y);
    }
    forall x | x in rest
      ensures x !in row
    {
      PairsSound(ps, strong, i, x);
      var a, b :| a < i && IsPair(ps, x, a, b);
      assert x[0] != ps[i];
    }
  }

  lemma {:induction false} PairsOnce(ps: seq<string>, strong: iset<seq<string>>, i: int)
    requires 0 <= i <= |ps| && Distinct(ps)
    ensures NoDuplicates(Pairs(ps, strong, i))
  {
    if i > 0 {
      PairsOnce(ps, strong, i - 1);
      PairRowOnce(ps, strong, i - 1, |ps|);
      PairsApart(ps, strong, i - 1);
      NoDuplicatesConcat(Pairs(ps, strong, i - 1), PairRow(ps, strong, i - 1, |ps|));
    }
  }

  lemma {:induction false} TripleCellOnce(ps: seq<string>, strong: iset<seq<string>>, i: int, j: int, l: int)
    requires 0 <= i < j < |ps| && l <= |ps| && Distinct(ps)
    ensures NoDuplicates(TripleCell(ps, strong, i, j, l))
    decreases l
  {
    if l > j + 1 {
      TripleCellOnce(ps, strong, i, j, l - 1);
      var rest, c := TripleCell(ps, strong, i, j, l - 1), [ps[i], ps[j], ps[l - 1]];
      forall x | x in rest
        ensures x != c
      {
        TripleCellSound(ps, strong, i, j, l - 1, x);
        var d :| j < d < l - 1 && IsTriple(ps, x, i, j, d);
        assert x[2] != c[2];
      }
      if c in strong {
        NoDuplicatesConcat(rest, [c]);
      }
    }
  }

  lemma TripleRowApart(ps: seq<string>, strong: iset<seq<string>>, i: int, j: int)
    requires 0 <= i < j < |ps| && Distinct(ps)
    ensures forall x :: x in TripleRow(ps, strong, i, j) ==> x !in TripleCell(ps, strong, i, j, |ps|)
  {
    var rest, row := TripleRow(ps, strong, i, j), TripleCell(ps, strong, i, j, |ps|);
    forall y | y in row
      ensures |y| == 3 && y[1] == ps[j]
    {
      TripleCellSound(ps, strong, i, j, |ps|, y);
    }
    forall x | x in rest
      ensures x !in row
    {
      TripleRowSound(ps, strong, i, j, x);
      var b, d :| b < j && IsTriple(ps, x, i, b, d);
      assert x[1] != ps[j];
    }
  }

  lemma {:induction false} TripleRowOnce(ps: seq<string>, strong: iset<seq<string>>, i: int, j: int)
    requires 0 <= i < |ps| && j <= |ps| && Distinct(ps)
    ensures NoDuplicates(TripleRow(ps, strong, i, j))
    decreases j
  {
    if j > i + 1 {
      TripleRowOnce(ps, strong, i, j - 1);
      TripleCellOnce(ps, strong, i, j - 1, |ps|);
      TripleRowApart(ps, strong, i, j - 1);
      NoDuplicatesConcat(TripleRow(ps, strong, i, j - 1), TripleCell(ps, strong, i, j - 1, |ps|));
    }
  }

  lemma TriplesApart(ps: seq<string>, strong: iset<seq<string>>, i: int)
    requires 0 <= i < |ps| && Distinct(ps)
    ensures forall x :: x in Triples(ps, strong, i) ==> x !in TripleRow(ps, strong, i, |ps|)
  {
    var rest, row := Triples(ps, strong, i), TripleRow(ps, strong, i, |ps|);
    forall y | y in row
      ensures |y| == 3 && y[0] == ps[i]
    {
      TripleRowSound(ps, strong, i, |ps|, y);
    }
    forall x | x in rest
      ensures x !in row
    {
      TriplesSound(ps, strong, i, x);
      var a, b, d :| a < i && IsTriple(ps, x, a, b, d);
      assert x[0] != ps[i];
    }
  }

  lemma {:induction false} TriplesOnce(ps: seq<string>, strong: iset<seq<string>>, i: int)
    requires 0 <= i <= |ps| && Distinct(ps)
    ensures NoDuplicates(Triples(ps, strong, i))
  {
    if i > 0 {
      TriplesOnce(ps, strong, i - 1);
      TripleRowOnce(ps, strong, i - 1, |ps|);
      TriplesApart(ps, strong, i - 1);
      NoDuplicatesConcat(Triples(ps, strong, i - 1), TripleRow(ps, strong, i - 1, |ps|));
    }
  }

  predicate NonIncreasing(cs: seq<seq<string>>)
  {
    forall x, y :: 0 <= x < y < |cs| ==> CoalitionStrength(cs[x]) >= CoalitionStrength(cs[y])
  }

  /** Insert after every coalition at least as strong, keeping equal ones in order. */
  function InsertByStrength(c: seq<string>, sorted: seq<seq<string>>): (r: seq<seq<string>>)
    ensures multiset(r) == multiset(sorted) + multiset{c}
  {
    if sorted == [] then [c]
    else if CoalitionStrength(sorted[0]) < CoalitionStrength(c) then [c] + sorted
    else
      assert sorted == [sorted[0]] + sorted[1..];
      [sorted[0]] + InsertByStrength(c, sorted[1..])
  }

  lemma ConsNonIncreasing(h: seq<string>, t: seq<seq<string>>)
    requires NonIncreasing(t)
    requires forall y :: 0 <= y < |t| ==> CoalitionStrength(h) >= CoalitionStrength(t[y])
    ensures NonIncreasing([h] + t)
  {
    forall x, y | 0 <= x < y < |[h] + t|
      ensures CoalitionStrength(([h] + t)[x]) >= CoalitionStrength(([h] + t)[y])
    {
      assert ([h] + t)[y] == t[y - 1];
      if x > 0 {
        assert ([h] + t)[x] == t[x - 1];
      }
    }
  }

  /** Inserting into a list ordered strongest first keeps it so ordered. */
  lemma {:induction false} InsertKeepsOrder(c: seq<string>, sorted: seq<seq<string>>)
    requires NonIncreasing(sorted)
    ensures NonIncreasing(InsertByStrength(c, sorted))
  {
    if sorted == [] {
    } else if CoalitionStrength(sorted[0]) < CoalitionStrength(c) {
      ConsNonIncreasing(c, sorted);
    } else {
      var tail := sorted[1..];
      var rest := InsertByStrength(c, tail);
      assert NonIncreasing(tail) by {
        forall x, y | 0 <= x < y < |tail|
          ensures CoalitionStrength(tail[x]) >= CoalitionStrength(tail[y])
        {
          assert tail[x] == sorted[x + 1] && tail[y] == sorted[y + 1];
        }
      }
      InsertKeepsOrder(c, tail);
      forall y | 0 <= y < |rest|
        ensures CoalitionStrength(sorted[0]) >= CoalitionStrength(rest[y])
      {
        assert rest[y] in multiset(rest);
        if rest[y] != c {
          assert rest[y] in multiset(tail);
          var z :| 0 <= z < |tail| && tail[z] == rest[y];
          assert tail[z] == sorted[z + 1];
        }
      }
      ConsNonIncreasing(sorted[0], rest);
    }
  }

  /** `coalitions.sort((a, b) => strength(b) - strength(a))`: a stable sort by
      strength, strongest first; `SortIsStable` shows ties keep their order. */
  function SortByStrength(cs: seq<seq<string>>): (r: seq<seq<string>>)
    ensures multiset(r) == multiset(cs)
    ensures NonIncreasing(r)
  {
    if cs == [] then []
    else
      var n := |cs| - 1;
      assert cs == cs[..n] + [cs[n]];
      var sorted := SortByStrength(cs[..n]);
      InsertKeepsOrder(cs[n], sorted);
      InsertByStrength(cs[n], sorted)
  }

  /** The coalitions of strength `v`, in their order in `cs`. */
  function WithStrength(cs: seq<seq<string>>, v: real): seq<seq<string>>
  {
    if cs == [] then []
    else (if CoalitionStrength(cs[0]) == v then [cs[0]] else []) + WithStrength(cs[1..], v)
  }

  lemma {:induction false} WithStrengthConcat(a: seq<seq<string>>, b: seq<seq<string>>, v: real)
    ensures WithStrength(a + b, v) == WithStrength(a, v) + WithStrength(b, v)
  {
    if a != [] {
      assert (a + b)[0] == a[0] && (a + b)[1..] == a[1..] + b;
      WithStrengthConcat(a[1..], b, v);
    } else {
      assert a + b == b;
    }
  }

  lemma {:induction false} WithStrengthNone(cs: seq<seq<string>>, v: real)
    requires forall y :: 0 <= y < |cs| ==> CoalitionStrength(cs[y]) != v
    ensures WithStrength(cs, v) == []
  {
    if cs != [] {
      WithStrengthNone(cs[1..], v);
    }
  }

  /** Inserting keeps the coalitions of each strength in their order and puts
      the new one after those of equal strength. */
  lemma {:induction false} InsertIsStable(c: seq<string>, sorted: seq<seq<string>>, v: real)
    requires NonIncreasing(sorted)
    ensures WithStrength(InsertByStrength(c, sorted), v) ==
      WithStrength(sorted, v) + (if CoalitionStrength(c) == v then [c] else [])
  {
    if sorted == [] {
    } else if CoalitionStrength(sorted[0]) < CoalitionStrength(c) {
      if CoalitionStrength(c) == v {
        forall y | 0 <= y < |sorted|
          ensures CoalitionStrength(sorted[y]) != v
        {
          if y > 0 {
            assert CoalitionStrength(sorted[0]) >= CoalitionStrength(sorted[y]);
          }
        }
        WithStrengthNone(sorted, v);
      }
      assert ([c] + sorted)[1..] == sorted;
    } else {
      var tail := sorted[1..];
      assert NonIncreasing(tail) by {
        forall x, y | 0 <= x < y < |tail|
          ensures CoalitionStrength(tail[x]) >= CoalitionStrength(tail[y])
        {
          assert tail[x] == sorted[x + 1] && tail[y] == sorted[y + 1];
        }
      }
      InsertIsStable(c, tail, v);
      assert ([sorted[0]] + InsertByStrength(c, tail))[1..] == InsertByStrength(c, tail);
    }
  }

  /** The sort is stable: for every strength, the coalitions of that strength
      keep the order they had before sorting. */
  lemma {:induction false} SortIsStable(cs: seq<seq<string>>, v: real)
    ensures WithStrength(SortByStrength(cs), v) == WithStrength(cs, v)
  {
    if cs != [] {
      var n := |cs| - 1;
      assert cs == cs[..n] + [cs[n]];
      SortIsStable(cs[..n], v);
      InsertIsStable(cs[n], SortByStrength(cs[..n]), v);
      WithStrengthConcat(cs[..n], [cs[n]], v);
    }
  }

  lemma {:induction false} NoDuplicatesCount(cs: seq<seq<string>>, c: seq<string>)
    requires NoDuplicates(cs)
    ensures multiset(cs)[c] == if c in cs then 1 else 0
  {
    if cs != [] {
      var n := |cs| - 1;
      assert cs == cs[..n] + [cs[n]];
      NoDuplicatesCount(cs[..n], c);
      assert cs[n] !in cs[..n];
    }
  }

  /** The enumeration lists exactly the candidates, none twice. */
  lemma CandidatesListedOnce(ps: seq<string>, strong: iset<seq<string>>)
    requires Distinct(ps)
    ensures var all := Pairs(ps, strong, |ps|) + Triples(ps, strong, |ps|);
      NoDuplicates(all) && forall c :: c in all <==> Candidate(ps, strong, c)
  {
    var pairs, triples := Pairs(ps, strong, |ps|), Triples(ps, strong, |ps|);
    forall c
      ensures c in pairs + triples <==> Candidate(ps, strong, c)
    {
      if c in pairs {
        PairsSound(ps, strong, |ps|, c);
      }
      if c in triples {
        TriplesSound(ps, strong, |ps|, c);
      }
      if exists a, b :: IsPair(ps, c, a, b) {
        var a, b :| IsPair(ps, c, a, b);
        if c in strong {
          PairsComplete(ps, strong, |ps|, a, b, c);
        }
      }
      if exists a, b, d :: IsTriple(ps, c, a, b, d) {
        var a, b, d :| IsTriple(ps, c, a, b, d);
        if c in strong {
          TriplesComplete(ps, strong, |ps|, a, b, d, c);
        }
      }
    }
    PairsOnce(ps, strong, |ps|);
    TriplesOnce(ps, strong, |ps|);
    forall c | c in pairs
      ensures c !in triples
    {
      PairsSound(ps, strong, |ps|, c);
      forall y | y in triples
        ensures |y| == 3
      {
        TriplesSound(ps, strong, |ps|, y);
      }
    }
    NoDuplicatesConcat(pairs, triples);
  }

  /** The two-party loops of `getPossibleCoalitions`. */
  method EnumeratePairs(parties: seq<string>, minStrength: real) returns (coalitions: seq<seq<string>>)
    ensures coalitions == Pairs(parties, StrongEnough(minStrength), |parties|)
  {
    coalitions := [];
    var i := 0;
    while i < |parties|
      invariant 0 <= i <= |parties|
      invariant coalitions == Pairs(parties, StrongEnough(minStrength), i)
    {
      var j := i + 1;
      while j < |parties|
        invariant i + 1 <= j <= |parties| || (i + 1 == |parties| && j == i + 1)
        invariant coalitions == Pairs(parties, StrongEnough(minStrength), i) + PairRow(parties, StrongEnough(minStrength), i, j)
      {
        var coalition := [parties[i], parties[j]];
        if CoalitionStrength(coalition) >= minStrength {
          coalitions := coalitions + [coalition];
        }
        j := j + 1;
      }
      i := i + 1;
    }
  }

  /** The innermost three-party loop of `getPossibleCoalitions` for the parties
      `i` and `j`, appending to `acc`. */
  method EnumerateTripleCell(parties: seq<string>, minStrength: real, i: int, j: int, acc: seq<seq<string>>)
    returns (coalitions: seq<seq<string>>)
    requires 0 <= i < j < |parties|
    ensures coalitions == acc + TripleCell(parties, StrongEnough(minStrength), i, j, |parties|)
  {
    coalitions := acc;
    var k := j + 1;
    while k < |parties|
      invariant j + 1 <= k <= |parties|
      invariant coalitions == acc + TripleCell(parties, StrongEnough(minStrength), i, j, k)
    {
      var coalition := [parties[i], parties[j], parties[k]];
      if CoalitionStrength(coalition) >= minStrength {
        coalitions := coalitions + [coalition];
        assert acc + TripleCell(parties, StrongEnough(minStrength), i, j, k + 1) ==
          acc + TripleCell(parties, StrongEnough(minStrength), i, j, k) + [coalition];
      }
      k := k + 1;
    }
  }

  /** The middle three-party loop of `getPossibleCoalitions` for the first party
      `i`, appending to `acc`. */
  method EnumerateTriplesFrom(parties: seq<string>, minStrength: real, i: int, acc: seq<seq<string>>)
    returns (coalitions: seq<seq<string>>)
    requires 0 <= i < |parties|
    ensures coalitions == acc + TripleRow(parties, StrongEnough(minStrength), i, |parties|)
  {
    coalitions := acc;
    var j := i + 1;
    while j < |parties|
      invariant i + 1 <= j <= |parties|
      invariant coalitions == acc + TripleRow(parties, StrongEnough(minStrength), i, j)
    {
      coalitions := EnumerateTripleCell(parties, minStrength, i, j, coalitions);
      assert acc + TripleRow(parties, StrongEnough(minStrength), i, j + 1) ==
        acc + TripleRow(parties, StrongEnough(minStrength), i, j) + TripleCell(parties, StrongEnough(minStrength), i, j, |parties|);
      j := j + 1;
    }
  }

  /** The three-party loops of `getPossibleCoalitions`, appending to `prefix`. */
  method EnumerateTriples(parties: seq<string>, minStrength: real, prefix: seq<seq<string>>)
    returns (coalitions: seq<seq<string>>)
    ensures coalitions == prefix + Triples(parties, StrongEnough(minStrength), |parties|)
  {
    coalitions := prefix;
    var i := 0;
    while i < |parties|
      invariant 0 <= i <= |parties|
      invariant coalitions == prefix + Triples(parties, StrongEnough(minStrength), i)
    {
      coalitions := EnumerateTriplesFrom(parties, minStrength, i, coalitions);
      assert prefix + Triples(parties, StrongEnough(minStrength), i + 1) ==
        prefix + Triples(parties, StrongEnough(minStrength), i) + TripleRow(parties, StrongEnough(minStrength), i, |parties|);
      i := i + 1;
    }
  }

  /** `getPossibleCoalitions`: every two- and three-party coalition without the
      catch-all party that reaches `minStrength`, each exactly once, strongest first,
      and coalitions of equal strength in the order they were enumerated: pairs
      before triples, each in loop order. */
  method GetPossibleCoalitions(minStrength: real) returns (r: seq<seq<string>>)
    ensures forall c :: multiset(r)[c] == if Candidate(EligibleParties(), StrongEnough(minStrength), c) then 1 else 0
    ensures NonIncreasing(r)
    ensures forall v ::
      WithStrength(r, v) ==
      WithStrength(Pairs(EligibleParties(), StrongEnough(minStrength), |EligibleParties()|) +
                   Triples(EligibleParties(), StrongEnough(minStrength), |EligibleParties()|), v)
  {
    var parties := EligibleParties();
    var coalitions := EnumeratePairs(parties, minStrength);
    coalitions := EnumerateTriples(parties, minStrength, coalitions);
    CandidatesListedOnce(parties, StrongEnough(minStrength));
    r := SortByStrength(coalitions);
    forall c
      ensures multiset(r)[c] == if Candidate(parties, StrongEnough(minStrength), c) then 1 else 0
    {
      NoDuplicatesCount(coalitions, c);
    }
    forall v
      ensures WithStrength(r, v) == WithStrength(coalitions, v)
    {
      SortIsStable(coalitions, v);
    }
  }
}
