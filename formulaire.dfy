/**
 * The quote form: the bounds of the age field and the mapping from the
 * chosen zone label to the density label the calculator expects.
 */
module Formulaire {
  import opened Texte
  import opened Tarif

  /** Bounds of the age number input. */
  const AgeChampMin: int := 65
  const AgeChampMax: int := 94

  /** The two options of the zone select box, in display order. */
  const ZoneOptions: seq<string> := [
    "Grande ville / Zone urbaine (densité médicale forte)",
    "Zone rurale / Petite ville (densité médicale faible)"
  ]

  /** A label that mentions "forte" anywhere is high density; every other label is low density. */
  function DensiteDeZone(zoneLabel: string): (densite: string)
    ensures IsDensite(densite)
    ensures densite == "forte" <==> exists i :: OccursAt(zoneLabel, "forte", i)
    ensures densite == "faible" <==> !exists i :: OccursAt(zoneLabel, "forte", i)
  {
    if Contains(zoneLabel, "forte") then "forte" else "faible"
  }

  /** The urban option is priced at high density and the rural option at low density. */
  lemma ZoneOptionsDensites()
    ensures DensiteDeZone(ZoneOptions[0]) == "forte"
    ensures DensiteDeZone(ZoneOptions[1]) == "faible"
  {
    UrbanLabelHasForte();
    RuralLabelLacksForte();
  }

  /** "forte" closes the urban label. */
  lemma UrbanLabelHasForte()
    ensures exists i :: OccursAt(ZoneOptions[0], "forte", i)
  {
    var u := "Grande ville / Zone urbaine (densité médicale ";
    assert ZoneOptions[0] == u + "forte)";
    assert (u + "forte)")[|u|..|u| + 5] == "forte";
    assert OccursAt(ZoneOptions[0], "forte", |u|);
  }

  /** No 'f' comes before "faible", and no 'o' from "faible" on. */
  lemma RuralLabelLacksForte()
    ensures !exists i :: OccursAt(ZoneOptions[1], "forte", i)
  {
    var head := RuralLabelHead();
    NoOccurrenceInConcat(head, "faible)", "forte", 1);
  }

  /** The rural label is a text free of 'f' followed by "faible)". */
  lemma RuralLabelHead() returns (head: string)
    ensures ZoneOptions[1] == head + "faible)" && 'f' !in head
  {
    var p2 := "Zone rurale / Petite ville (d";
    head := "Zone rurale / Petite ville (densité médicale ";
    assert 'f' !in p2 by {
      assert p2 == "Zone rurale / " + "Petite ville (d";
      assert 'f' !in "Zone rurale / " && 'f' !in "Petite ville (d";
    }
    assert 'f' !in head by {
      assert head == p2 + "ensité médicale ";
      assert 'f' !in "ensité médicale ";
    }
    assert ZoneOptions[1] == head + "faible)";
  }

  /** The age field admits exactly the ages the table prices. */
  lemma AgeChampMatchesTable(age: int)
    ensures AgeChampMin <= age <= AgeChampMax <==> age in PrimesPures
  {
    TableDomain(age);
  }

  /** Whatever the zone chosen, an age the form accepts always yields a quote. */
  lemma FormAlwaysPriced(age: int, zoneLabel: string)
    requires AgeChampMin <= age <= AgeChampMax
    ensures CalculPrimeCommerciale(age, DensiteDeZone(zoneLabel)).Ok?
  {
  }
}
