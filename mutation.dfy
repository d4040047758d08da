/**
 * mutate: a copy of the genome with point mutations of organs and pathways,
 * an occasional invented organ type registered in the organ-type registry,
 * and structural growth by one organ and up to two pathways.
 */
module Mutation {
  import opened Outcomes
  import opened Text
  import opened Collections
  import opened Genomes

  const OrganPrefixes: seq<string> :=
    ["Photo", "Chemo", "Cryo", "Thermo", "Radio", "Neuro", "Cognitive",
     "Structural", "Hydro", "Aero", "Lipo", "Silico", "Ferro", "Quantum"]
  const OrganFunctions: seq<string> :=
    ["Receptor", "Processor", "Actuator", "Capacitor", "Generator",
     "Modulator", "Filter", "Membrane", "Core", "Pump", "Girder", "Shield"]
  const PathwayTypes: seq<string> := ["Metabolic", "Nervous", "Structural"]

  // ------------------------------------------------------------- the draws

  /** Per organ: the three rolls against the mutation rate and the samples they gate. */
  datatype OrganDraws = OrganDraws(
    sizeRoll: real, sizeFactor: real,
    efficiencyRoll: real, efficiencyNoise: real,
    materialRoll: real, elementPick: nat, materialChange: real)

  /** Per pathway: the roll against the mutation rate and the lognormal factor. */
  datatype PathwayDraws = PathwayDraws(flowRoll: real, flowFactor: real)

  /** The samples for a new organ and the pathway that connects it. */
  datatype NewOrganDraws = NewOrganDraws(
    typePick: nat, elementPicks: (nat, nat), fractions: (real, real),
    size: real, efficiency: real, color: string, position: Position,
    targetPick: nat, flow: real, pathwayTypePick: nat)

  /** The samples for a new pathway between two organs. */
  datatype NewPathwayDraws = NewPathwayDraws(organPicks: (nat, nat), flow: real, pathwayTypePick: nat)

  /** Every random value one call of mutate consumes. */
  datatype MutationDraws = MutationDraws(
    inventRoll: real, prefixPick: nat, functionPick: nat,
    organ: nat -> OrganDraws, pathway: nat -> PathwayDraws,
    addOrganRoll: real, newOrgan: NewOrganDraws,
    addPathwayRoll: real, newPathway: NewPathwayDraws)

  /** random.choice(s): the element at a drawn position. */
  function Choice<T>(s: seq<T>, pick: nat): (x: T)
    requires |s| > 0
    ensures x in s
  {
    s[pick % |s|]
  }

  /** Every element can be chosen: the pick of its own position chooses it. */
  lemma ChoiceCovers<T>(s: seq<T>, i: nat)
    requires i < |s|
    ensures Choice(s, i) == s[i]
  {
    ModSmall(i, |s|);
  }

  /** random.sample of two items from n: two distinct positions below n. */
  function PickTwo(n: nat, a: nat, b: nat): (r: (nat, nat))
    requires n >= 2
    ensures r.0 < n && r.1 < n && r.0 != r.1
  {
    var i := a % n;
    (i, (i + 1 + b % (n - 1)) % n)
  }

  /** Every ordered pair of distinct positions is one of PickTwo's draws. */
  lemma PickTwoCovers(n: nat, i: nat, j: nat)
    requires n >= 2 && i < n && j < n && i != j
    ensures PickTwo(n, i, (j + n - i - 1) % n) == (i, j)
  {
    var b := (j + n - i - 1) % n;
    ModSmall(i, n);
    if j > i {
      ModWrap(j + n - i - 1, n);
      ModSmall(b, n - 1);
      ModSmall(i + 1 + b, n);
    } else {
      ModSmall(j + n - i - 1, n);
      ModSmall(b, n - 1);
      ModWrap(i + 1 + b, n);
    }
  }

  lemma ModSmall(x: int, n: int)
    requires 0 <= x < n
    ensures x % n == x
  {
  }

  lemma ModWrap(x: int, n: int)
    requires 0 < n <= x < n + n
    ensures x % n == x - n
  {
  }

  /** np.clip for lo <= hi. */
  function Clip(x: real, lo: real, hi: real): (r: real)
    requires lo <= hi
    ensures lo <= r <= hi
    ensures lo <= x <= hi ==> r == x
    ensures x < lo ==> r == lo
    ensures x > hi ==> r == hi
  {
    if x < lo then lo else if x > hi then hi else x
  }

  // -------------------------------------------------------- point mutation

  /** The size step: the size is scaled by the lognormal factor when its roll succeeds. */
  function MutateSize(o: OrganGene, d: OrganDraws, rate: real): (r: OrganGene)
    ensures r == o.(size := r.size)
    ensures r.size == if d.sizeRoll < rate then o.size * d.sizeFactor else o.size
  {
    if d.sizeRoll < rate then o.(size := o.size * d.sizeFactor) else o
  }

  /** A positive factor never changes the sign of the size. */
  lemma MutateSizeKeepsSign(o: OrganGene, d: OrganDraws, rate: real)
    requires d.sizeFactor > 0.0
    ensures MutateSize(o, d, rate).size > 0.0 <==> o.size > 0.0
  {
    if d.sizeRoll < rate {
      var s := o.size * d.sizeFactor;
      if o.size > 0.0 {
        assert s > 0.0;
      } else {
        assert s <= 0.0;
      }
    }
  }

  /** The efficiency step: a mutated efficiency is clipped to [0.01, 1.0]. */
  function MutateEfficiency(o: OrganGene, d: OrganDraws, rate: real): (r: OrganGene)
    ensures r == o.(efficiency := r.efficiency)
    ensures d.efficiencyRoll < rate ==> r.efficiency == Clip(o.efficiency + d.efficiencyNoise, 0.01, 1.0)
    ensures d.efficiencyRoll < rate ==> 0.01 <= r.efficiency <= 1.0
    ensures !(d.efficiencyRoll < rate) ==> r == o
  {
    if d.efficiencyRoll < rate then o.(efficiency := Clip(o.efficiency + d.efficiencyNoise, 0.01, 1.0)) else o
  }

  /**
   * The material step: when its roll succeeds and the universe has elements,
   * one element's fraction is set to its old value (0.0 if absent) plus the
   * change, clipped to [0, 1].
   */
  function MutateMaterial(o: OrganGene, d: OrganDraws, elements: seq<string>, rate: real): (r: OrganGene)
    ensures r == o.(materials := r.materials)
  {
    if d.materialRoll < rate * 0.1 && |elements| > 0 then
      var e := Choice(elements, d.elementPick);
      var current := if e in o.materials then o.materials[e] else 0.0;
      o.(materials := o.materials[e := Clip(current + d.materialChange, 0.0, 1.0)])
    else o
  }

  /**
   * The material step keeps every old element, adds at most one element of
   * the universe, and leaves every fraction it touches inside [0, 1]. Only
   * the drawn element changes: on a successful roll its fraction becomes
   * the old one (0.0 if absent) plus the change, clipped; every other entry
   * keeps its value.
   */
  lemma MutateMaterialBounds(o: OrganGene, d: OrganDraws, elements: seq<string>, rate: real)
    ensures var r := MutateMaterial(o, d, elements, rate);
            var rolled := d.materialRoll < rate * 0.1 && |elements| > 0;
            var e := if |elements| > 0 then Choice(elements, d.elementPick) else "";
            && (forall k :: k in o.materials && (k != e || !rolled) ==> k in r.materials && r.materials[k] == o.materials[k])
            && (rolled ==> e in elements)
            && (rolled ==>
                  r.materials == o.materials[e := Clip((if e in o.materials then o.materials[e] else 0.0) + d.materialChange, 0.0, 1.0)])
            && o.materials.Keys <= r.materials.Keys
            && (forall k :: k in r.materials && k !in o.materials ==> k in elements)
            && |r.materials.Keys - o.materials.Keys| <= 1
            && (forall k :: k in r.materials ==>
                  (k in o.materials && r.materials[k] == o.materials[k]) || 0.0 <= r.materials[k] <= 1.0)
            && (!(d.materialRoll < rate * 0.1 && |elements| > 0) ==> r == o)
  {
    var r := MutateMaterial(o, d, elements, rate);
    if d.materialRoll < rate * 0.1 && |elements| > 0 {
      var e := Choice(elements, d.elementPick);
      assert r.materials.Keys - o.materials.Keys <= {e};
    }
  }

  /**
   * One organ after point mutation: the size, efficiency and material steps
   * in turn. Identity, type, colour and position never change.
   */
  function MutateOrgan(o: OrganGene, d: OrganDraws, elements: seq<string>, rate: real): (r: OrganGene)
    ensures r == o.(size := r.size, efficiency := r.efficiency, materials := r.materials)
  {
    MutateMaterial(MutateEfficiency(MutateSize(o, d, rate), d, rate), d, elements, rate)
  }

  /** One pathway after point mutation: only the flow capacity changes, scaled by the factor when its roll succeeds. */
  function MutatePathway(p: PathwayGene, d: PathwayDraws, rate: real): (r: PathwayGene)
    ensures r == p.(flowCapacity := r.flowCapacity)
    ensures r.flowCapacity == (if d.flowRoll < rate then p.flowCapacity * d.flowFactor else p.flowCapacity)
    ensures d.flowFactor > 0.0 ==> (r.flowCapacity > 0.0 <==> p.flowCapacity > 0.0)
  {
    if d.flowRoll < rate then p.(flowCapacity := p.flowCapacity * d.flowFactor) else p
  }

  /** The body of mutate's organ loop: the three field updates of one organ, in order. */
  method UpdateOrganFields(organ: OrganGene, d: OrganDraws, elements: seq<string>, rate: real) returns (o: OrganGene)
    ensures o == MutateOrgan(organ, d, elements, rate)
  {
    o := organ;
    if d.sizeRoll < rate {
      o := o.(size := o.size * d.sizeFactor);
    }
    if d.efficiencyRoll < rate {
      o := o.(efficiency := Clip(o.efficiency + d.efficiencyNoise, 0.01, 1.0));
    }
    if d.materialRoll < rate * 0.1 && |elements| > 0 {
      var e := Choice(elements, d.elementPick);
      var current := if e in o.materials then o.materials[e] else 0.0;
      o := o.(materials := o.materials[e := Clip(current + d.materialChange, 0.0, 1.0)]);
    }
  }

  /** The organ loop of mutate, updating each organ's fields in place. */
  method PointMutateOrgans(organs: seq<OrganGene>, draw: nat -> OrganDraws, elements: seq<string>, rate: real)
    returns (mutated: seq<OrganGene>)
    ensures |mutated| == |organs|
    ensures forall i :: 0 <= i < |organs| ==> mutated[i] == MutateOrgan(organs[i], draw(i), elements, rate)
  {
    mutated := organs;
    var i := 0;
    while i < |mutated|
      invariant 0 <= i <= |mutated| == |organs|
      invariant forall j :: 0 <= j < i ==> mutated[j] == MutateOrgan(organs[j], draw(j), elements, rate)
      invariant forall j :: i <= j < |organs| ==> mutated[j] == organs[j]
    {
      var o := UpdateOrganFields(mutated[i], draw(i), elements, rate);
      mutated := mutated[i := o];
      i := i + 1;
    }
  }

  /** The pathway loop of mutate, scaling flow capacities in place. */
  method PointMutatePathways(pathways: seq<PathwayGene>, draw: nat -> PathwayDraws, rate: real)
    returns (mutated: seq<PathwayGene>)
    ensures |mutated| == |pathways|
    ensures forall i :: 0 <= i < |pathways| ==> mutated[i] == MutatePathway(pathways[i], draw(i), rate)
  {
    mutated := pathways;
    var i := 0;
    while i < |mutated|
      invariant 0 <= i <= |mutated| == |pathways|
      invariant forall j :: 0 <= j < i ==> mutated[j] == MutatePathway(pathways[j], draw(j), rate)
      invariant forall j :: i <= j < |pathways| ==> mutated[j] == pathways[j]
    {
      if draw(i).flowRoll < rate {
        mutated := mutated[i := mutated[i].(flowCapacity := mutated[i].flowCapacity * draw(i).flowFactor)];
      }
      i := i + 1;
    }
  }

  // ------------------------------------------------------ organ-type registry

  /** The registry's seed when mutate finds none: the protocell's organ types. */
  function InitialOrganTypes(): (types: seq<string>)
    ensures |types| == 2 && NoDuplicates(types)
  {
    ProtocellShape(0);
    OrganTypes(Protocell(0).organs)
  }

  /**
   * Registering an organ type: the type is present afterwards, the old list
   * is kept as a prefix, and it grows by at most the one type, so a list
   * without duplicates stays without duplicates.
   */
  function Register(types: seq<string>, t: string): (r: seq<string>)
    ensures t in r && |types| <= |r| <= |types| + 1 && r[..|types|] == types
    ensures t in types ==> r == types
    ensures NoDuplicates(types) ==> NoDuplicates(r)
  {
    if t in types then types else types + [t]
  }

  /** Registering the same type twice changes nothing the second time. */
  lemma RegisterIdempotent(types: seq<string>, t: string)
    ensures Register(Register(types, t), t) == Register(types, t)
  {
  }

  function SeedOr(types: Option<seq<string>>): seq<string> {
    if types.Some? then types.value else InitialOrganTypes()
  }

  /**
   * How the known organ types may change over a run: a seeded list only grows
   * at its end, and an absent one stays absent or is seeded with the
   * protocell's types first.
   */
  predicate TypesExtend(before: Option<seq<string>>, after: Option<seq<string>>) {
    match before
    case Some(b) => after.Some? && b <= after.value
    case None => after.None? || InitialOrganTypes() <= after.value
  }

  /** Registering an invented type extends the known types. */
  lemma RegisterExtends(before: Option<seq<string>>, t: string)
    ensures TypesExtend(before, Some(Register(SeedOr(before), t)))
  {
    var seed := SeedOr(before);
    assert seed <= Register(seed, t);
  }

  /** Extending twice is extending once. */
  lemma TypesExtendTransitive(a: Option<seq<string>>, b: Option<seq<string>>, c: Option<seq<string>>)
    requires TypesExtend(a, b) && TypesExtend(b, c)
    ensures TypesExtend(a, c)
  {
    if a.Some? {
      PrefixTransitive(a.value, b.value, c.value);
    } else if b.Some? {
      PrefixTransitive(InitialOrganTypes(), b.value, c.value);
    }
  }

  lemma PrefixTransitive(x: seq<string>, y: seq<string>, z: seq<string>)
    requires x <= y && y <= z
    ensures x <= z
  {
    assert z[..|y|][..|x|] == z[..|x|];
  }

  /** The list of known organ types kept across calls; None until something seeds it. */
  class OrganTypeRegistry {
    var types: Option<seq<string>>

    /** A seeded registry is non-empty (so random.choice on it succeeds) and has no duplicates. */
    ghost predicate Valid()
      reads this
    {
      types.Some? ==> |types.value| > 0 && NoDuplicates(types.value)
    }

    constructor Absent()
      ensures Valid() && types == None
    {
      types := None;
    }

    /** The seeding at the start of a run: the organ types of the first genome of the population. */
    constructor Seeded(first: Genome)
      requires |first.organs| > 0 && NoDuplicates(OrganTypes(first.organs))
      ensures Valid() && types == Some(OrganTypes(first.organs))
    {
      types := Some(OrganTypes(first.organs));
    }

    /** An invented type: seed the registry if needed, then append the type only if it is absent. */
    method RegisterInvented(newType: string)
      requires Valid()
      modifies this
      ensures Valid()
      ensures types == Some(Register(SeedOr(old(types)), newType))
    {
      if types.None? {
        types := Some(InitialOrganTypes());
      }
      if newType !in types.value {
        types := Some(types.value + [newType]);
      }
    }
  }

  /** A new organ type: a random prefix joined to a random function. */
  function InventedType(d: MutationDraws): (t: string)
    ensures exists i, j :: 0 <= i < |OrganPrefixes| && 0 <= j < |OrganFunctions| && t == OrganPrefixes[i] + OrganFunctions[j]
  {
    Choice(OrganPrefixes, d.prefixPick) + Choice(OrganFunctions, d.functionPick)
  }

  // ------------------------------------------------------ structural growth

  /** random.sample(elements, k=min(2, len(elements))). */
  function SampleElements(elements: seq<string>, picks: (nat, nat)): (s: seq<string>)
    requires NoDuplicates(elements)
    ensures |s| == if |elements| < 2 then |elements| else 2
    ensures NoDuplicates(s) && forall e :: e in s ==> e in elements
  {
    if |elements| >= 2 then
      var (i, j) := PickTwo(|elements|, picks.0, picks.1);
      [elements[i], elements[j]]
    else elements
  }

  /** The random.random() fractions drawn for k sampled elements (k <= 2). */
  function Fractions(k: nat, fractions: (real, real)): (vals: seq<real>)
    requires k <= 2
    ensures |vals| == k
  {
    [fractions.0, fractions.1][..k]
  }

  /**
   * The new organ's material map over distinct sampled elements: each value
   * is divided by the total when the total is positive, and kept otherwise.
   */
  function NewMaterial(keys: seq<string>, vals: seq<real>): (m: map<string, real>)
    requires |keys| == |vals| && NoDuplicates(keys)
    ensures m.Keys == set k | k in keys
    ensures Sum(vals) > 0.0 ==> forall i :: 0 <= i < |keys| ==> m[keys[i]] == vals[i] / Sum(vals)
    ensures Sum(vals) <= 0.0 ==> forall i :: 0 <= i < |keys| ==> m[keys[i]] == vals[i]
  {
    if Sum(vals) > 0.0 then MapOf(keys, Scale(vals, Sum(vals))) else MapOf(keys, vals)
  }

  /** Normalised fractions, read off element by element, add up to one. */
  lemma NewMaterialSumsToOne(keys: seq<string>, vals: seq<real>)
    requires |keys| == |vals| && NoDuplicates(keys) && Sum(vals) > 0.0
    ensures Sum(seq(|keys|, i requires 0 <= i < |keys| => NewMaterial(keys, vals)[keys[i]])) == 1.0
  {
    var m := NewMaterial(keys, vals);
    assert seq(|keys|, i requires 0 <= i < |keys| => m[keys[i]]) == Scale(vals, Sum(vals));
    NormalizedSumsToOne(vals);
  }

  function NewOrganMaterial(elements: seq<string>, d: NewOrganDraws): (m: map<string, real>)
    requires NoDuplicates(elements)
    ensures forall k :: k in m ==> k in elements
    ensures |elements| > 0 ==> |m| > 0
  {
    var keys := SampleElements(elements, d.elementPicks);
    var m := NewMaterial(keys, Fractions(|keys|, d.fractions));
    assert |keys| > 0 ==> keys[0] in m && m != map[];
    m
  }

  /**
   * The add-organ step: one organ is appended with id "O-" + the old organ
   * count and a registered type; when the body already had an organ, one
   * pathway from the new organ to an existing organ is appended too.
   */
  method AddOrgan(organs: seq<OrganGene>, pathways: seq<PathwayGene>, organTypes: seq<string>,
                  elements: seq<string>, d: NewOrganDraws)
    returns (organs': seq<OrganGene>, pathways': seq<PathwayGene>)
    requires |organTypes| > 0 && NoDuplicates(elements)
    ensures |organs'| == |organs| + 1 && organs'[..|organs|] == organs
    ensures organs'[|organs|].id == NewOrganId(|organs|)
    ensures organs'[|organs|].organType in organTypes
    ensures organs'[|organs|] == OrganGene(NewOrganId(|organs|), organs'[|organs|].organType, d.size,
                                           d.efficiency, NewOrganMaterial(elements, d), d.color, d.position)
    ensures |organs| == 0 ==> pathways' == pathways
    ensures |organs| > 0 ==>
              && |pathways'| == |pathways| + 1 && pathways'[..|pathways|] == pathways
              && pathways'[|pathways|].source == NewOrganId(|organs|)
              && pathways'[|pathways|].target in OrganIds(organs)
              && pathways'[|pathways|].flowCapacity == d.flow
              && pathways'[|pathways|].pathwayType in PathwayTypes
    ensures Connected(pathways, organs) ==> Connected(pathways', organs')
    ensures IdsAtIndex(organs) ==> IdsAtIndex(organs')
    ensures IdsAtIndex(organs) && Connected(pathways, organs) && DistinctKeys(pathways) ==> DistinctKeys(pathways')
  {
    var newId := NewOrganId(|organs|);
    var newType := Choice(organTypes, d.typePick);
    var material := NewOrganMaterial(elements, d);
    var organ := OrganGene(newId, newType, d.size, d.efficiency, material, d.color, d.position);
    organs' := organs + [organ];
    pathways' := pathways;
    if |organs'| > 1 {
      var target := Choice(organs'[..|organs'| - 1], d.targetPick);
      assert organs'[..|organs'| - 1] == organs;
      pathways' := pathways' + [PathwayGene(newId, target.id, d.flow, Choice(PathwayTypes, d.pathwayTypePick))];
    }
    OrganIdsAppend(organs, organ);
    if IdsAtIndex(organs) {
      StructuralOrganKeepsIdsAtIndex(organs, organ);
      if Connected(pathways, organs) && DistinctKeys(pathways) && |organs| > 0 {
        NewOrganIdFresh(organs);
        PathwayFromNewOrganIsDistinct(pathways, organs, pathways'[|pathways|]);
      }
    }
  }

  lemma OrganIdsAppend(organs: seq<OrganGene>, organ: OrganGene)
    ensures OrganIds(organs + [organ]) == OrganIds(organs) + {organ.id}
  {
    assert organ in organs + [organ];
  }

  /** Appending organ number n with id "O-n" keeps every structural id at its index. */
  lemma StructuralOrganKeepsIdsAtIndex(organs: seq<OrganGene>, organ: OrganGene)
    requires IdsAtIndex(organs) && organ.id == NewOrganId(|organs|)
    ensures IdsAtIndex(organs + [organ])
  {
    var organs' := organs + [organ];
    forall i, j: nat | 0 <= i < |organs'| && organs'[i].id == NewOrganId(j)
      ensures i == j
    {
      if i == |organs| {
        NewOrganIdInjective(i, j);
      } else {
        assert organs'[i] == organs[i];
      }
    }
  }

  /** A pathway whose source is not yet an organ cannot repeat the key of a connected pathway. */
  lemma PathwayFromNewOrganIsDistinct(pathways: seq<PathwayGene>, organs: seq<OrganGene>, p: PathwayGene)
    requires Connected(pathways, organs) && DistinctKeys(pathways) && p.source !in OrganIds(organs)
    ensures DistinctKeys(pathways + [p])
  {
    forall i | 0 <= i < |pathways|
      ensures PathwayKey(pathways[i]) != PathwayKey(p)
    {
      assert pathways[i] in pathways;
    }
  }

  /**
   * The add-pathway step between two distinct organs: a pathway with their
   * (source, target) key is present afterwards, the list grows by one exactly
   * when that key was absent, and a list with distinct keys keeps them distinct.
   */
  method AddPathway(organs: seq<OrganGene>, pathways: seq<PathwayGene>, d: NewPathwayDraws)
    returns (pathways': seq<PathwayGene>)
    requires |organs| > 1
    ensures var (i, j) := PickTwo(|organs|, d.organPicks.0, d.organPicks.1);
            var key := (organs[i].id, organs[j].id);
            && (|pathways'| == |pathways| || |pathways'| == |pathways| + 1)
            && pathways'[..|pathways|] == pathways
            && key in KeySet(pathways')
            && (|pathways'| == |pathways| + 1 <==> key !in KeySet(pathways))
            && (|pathways'| > |pathways| ==> pathways'[|pathways|].pathwayType in PathwayTypes)
    ensures forall p :: p in pathways' && p !in pathways ==> p.source in OrganIds(organs) && p.target in OrganIds(organs)
    ensures DistinctKeys(pathways) ==> DistinctKeys(pathways')
    ensures Connected(pathways, organs) ==> Connected(pathways', organs)
  {
    var (i, j) := PickTwo(|organs|, d.organPicks.0, d.organPicks.1);
    var source, target := organs[i], organs[j];
    var exists_ := exists p :: p in pathways && p.source == source.id && p.target == target.id;
    pathways' := pathways;
    if !exists_ {
      var p := PathwayGene(source.id, target.id, d.flow, Choice(PathwayTypes, d.pathwayTypePick));
      pathways' := pathways + [p];
      assert PathwayKey(p) in KeySet(pathways');
    } else {
      var p :| p in pathways && p.source == source.id && p.target == target.id;
      assert PathwayKey(p) in KeySet(pathways);
    }
  }

  // ------------------------------------------------------------------ mutate

  /** Point mutation keeps every organ id and every pathway endpoint where it was. */
  lemma PointMutationKeepsWiring(organs: seq<OrganGene>, organs': seq<OrganGene>,
                                 pathways: seq<PathwayGene>, pathways': seq<PathwayGene>)
    requires |organs'| == |organs| && forall i :: 0 <= i < |organs| ==> organs'[i].id == organs[i].id
    requires |pathways'| == |pathways|
    requires forall i :: 0 <= i < |pathways| ==> PathwayKey(pathways'[i]) == PathwayKey(pathways[i])
    ensures OrganIds(organs') == OrganIds(organs)
    ensures Connected(pathways, organs) ==> Connected(pathways', organs')
    ensures IdsAtIndex(organs) ==> IdsAtIndex(organs')
    ensures DistinctKeys(pathways) ==> DistinctKeys(pathways')
  {
    forall id | id in OrganIds(organs)
      ensures id in OrganIds(organs')
    {
      var i :| 0 <= i < |organs| && organs[i].id == id;
      assert organs'[i] in organs';
    }
    forall id | id in OrganIds(organs')
      ensures id in OrganIds(organs)
    {
      var i :| 0 <= i < |organs'| && organs'[i].id == id;
      assert organs[i] in organs;
    }
    if Connected(pathways, organs) {
      forall p | p in pathways'
        ensures p.source in OrganIds(organs') && p.target in OrganIds(organs')
      {
        var i :| 0 <= i < |pathways'| && pathways'[i] == p;
        assert pathways[i] in pathways;
      }
    }
  }

  /** The add-organ step fires: its roll succeeds and the registry is seeded. */
  predicate OrganRoll(types: Option<seq<string>>, innovationRate: real, d: MutationDraws) {
    d.addOrganRoll < innovationRate && types.Some?
  }

  /** The add-pathway step fires: its roll succeeds and there are two organs to connect. */
  predicate PathwayRoll(organs: seq<OrganGene>, innovationRate: real, d: MutationDraws) {
    d.addPathwayRoll < innovationRate && |organs| > 1
  }

  /** Organ number |organs| of `organs'` is the one built from the draws, with id "O-" + |organs|. */
  ghost predicate NewOrganAt(organs: seq<OrganGene>, organs': seq<OrganGene>, elements: seq<string>, d: NewOrganDraws)
    requires NoDuplicates(elements)
  {
    && |organs'| == |organs| + 1
    && organs'[|organs|] == OrganGene(NewOrganId(|organs|), organs'[|organs|].organType, d.size, d.efficiency,
                                      NewOrganMaterial(elements, d), d.color, d.position)
  }

  /** Pathway number |pathways| of `pathways'` connects organ number n to one of the organs `ids` names. */
  ghost predicate ConnectingPathwayAt(n: nat, ids: set<string>, pathways: seq<PathwayGene>, pathways': seq<PathwayGene>,
                                      d: NewOrganDraws)
  {
    && |pathways'| > |pathways|
    && pathways'[|pathways|].source == NewOrganId(n)
    && pathways'[|pathways|].target in ids
    && pathways'[|pathways|].flowCapacity == d.flow
    && pathways'[|pathways|].pathwayType in PathwayTypes
  }

  /**
   * `after` is `before` with the drawn (source, target) key present: one
   * pathway is appended exactly when the key was absent.
   */
  ghost predicate PathwayKeyAdded(organs: seq<OrganGene>, before: seq<PathwayGene>, after: seq<PathwayGene>,
                                  d: NewPathwayDraws)
    requires |organs| > 1
  {
    var (i, j) := PickTwo(|organs|, d.organPicks.0, d.organPicks.1);
    var key := (organs[i].id, organs[j].id);
    && key in KeySet(after)
    && |after| == |before| + (if key in KeySet(before) then 0 else 1)
    && after[..|before|] == before
  }

  /**
   * Both structural steps, read off the final genes: the new organ and its
   * connecting pathway when the organ step fires, then the drawn key present
   * when the pathway step fires on the grown body.
   */
  ghost predicate Grown(organs: seq<OrganGene>, pathways: seq<PathwayGene>, organs': seq<OrganGene>,
                        pathways': seq<PathwayGene>, types: Option<seq<string>>, elements: seq<string>,
                        innovationRate: real, d: MutationDraws)
    requires NoDuplicates(elements)
  {
    var n1 := |pathways| + (if OrganRoll(types, innovationRate, d) && |organs| > 0 then 1 else 0);
    && n1 <= |pathways'|
    && (!OrganRoll(types, innovationRate, d) ==> |organs'| == |organs|)
    && (OrganRoll(types, innovationRate, d) ==> NewOrganAt(organs, organs', elements, d.newOrgan))
    && (OrganRoll(types, innovationRate, d) && |organs| > 0 ==>
          ConnectingPathwayAt(|organs|, OrganIds(organs), pathways, pathways', d.newOrgan))
    && (!PathwayRoll(organs', innovationRate, d) ==> |pathways'| == n1)
    && (PathwayRoll(organs', innovationRate, d) ==> PathwayKeyAdded(organs', pathways'[..n1], pathways', d.newPathway))
  }

  /** The add-organ step of mutate behind its roll and the registry check. */
  method GrowOrgan(organs: seq<OrganGene>, pathways: seq<PathwayGene>, types: Option<seq<string>>,
                   elements: seq<string>, innovationRate: real, d: MutationDraws)
    returns (organs': seq<OrganGene>, pathways': seq<PathwayGene>)
    requires (types.Some? ==> |types.value| > 0) && NoDuplicates(elements)
    ensures |organs| <= |organs'| <= |organs| + 1 && forall i :: 0 <= i < |organs| ==> organs'[i] == organs[i]
    ensures |organs'| > |organs| <==> d.addOrganRoll < innovationRate && types.Some?
    ensures |organs'| > |organs| ==>
              organs'[|organs|].id == NewOrganId(|organs|) && types.Some? && organs'[|organs|].organType in types.value
    ensures |pathways| <= |pathways'| <= |pathways| + 1 && forall i :: 0 <= i < |pathways| ==> pathways'[i] == pathways[i]
    ensures Connected(pathways, organs) ==> Connected(pathways', organs')
    ensures IdsAtIndex(organs) ==> IdsAtIndex(organs')
    ensures IdsAtIndex(organs) && Connected(pathways, organs) && DistinctKeys(pathways) ==> DistinctKeys(pathways')
    ensures !OrganRoll(types, innovationRate, d) ==> organs' == organs && pathways' == pathways
    ensures OrganRoll(types, innovationRate, d) ==> NewOrganAt(organs, organs', elements, d.newOrgan)
    ensures OrganRoll(types, innovationRate, d) && |organs| == 0 ==> pathways' == pathways
    ensures OrganRoll(types, innovationRate, d) && |organs| > 0 ==>
              |pathways'| == |pathways| + 1 && ConnectingPathwayAt(|organs|, OrganIds(organs), pathways, pathways', d.newOrgan)
  {
    organs', pathways' := organs, pathways;
    if d.addOrganRoll < innovationRate && types.Some? {
      organs', pathways' := AddOrgan(organs, pathways, types.value, elements, d.newOrgan);
      assert forall i :: 0 <= i < |organs| ==> organs'[i] == organs'[..|organs|][i];
      assert forall i :: 0 <= i < |pathways| ==> pathways'[i] == pathways'[..|pathways|][i];
    }
  }

  /** The add-pathway step of mutate behind its roll and the two-organ check. */
  method GrowPathway(organs: seq<OrganGene>, pathways: seq<PathwayGene>, innovationRate: real, d: MutationDraws)
    returns (pathways': seq<PathwayGene>)
    ensures |pathways| <= |pathways'| <= |pathways| + 1 && forall i :: 0 <= i < |pathways| ==> pathways'[i] == pathways[i]
    ensures Connected(pathways, organs) ==> Connected(pathways', organs)
    ensures DistinctKeys(pathways) ==> DistinctKeys(pathways')
    ensures !PathwayRoll(organs, innovationRate, d) ==> pathways' == pathways
    ensures PathwayRoll(organs, innovationRate, d) ==> PathwayKeyAdded(organs, pathways, pathways', d.newPathway)
  {
    pathways' := pathways;
    if d.addPathwayRoll < innovationRate && |organs| > 1 {
      pathways' := AddPathway(organs, pathways, d.newPathway);
      assert forall i :: 0 <= i < |pathways| ==> pathways'[i] == pathways'[..|pathways|][i];
    }
  }

  /**
   * The two structural steps of mutate: an organ is added when its roll
   * succeeds and the registry is seeded, then a pathway when its roll succeeds
   * and there are two organs to connect. Existing genes stay in place, and the
   * wiring invariants are kept.
   */
  method Grow(organs: seq<OrganGene>, pathways: seq<PathwayGene>, types: Option<seq<string>>,
              elements: seq<string>, innovationRate: real, d: MutationDraws)
    returns (organs': seq<OrganGene>, pathways': seq<PathwayGene>)
    requires (types.Some? ==> |types.value| > 0) && NoDuplicates(elements)
    ensures |organs| <= |organs'| <= |organs| + 1 && forall i :: 0 <= i < |organs| ==> organs'[i] == organs[i]
    ensures |organs'| > |organs| <==> d.addOrganRoll < innovationRate && types.Some?
    ensures |organs'| > |organs| ==>
              organs'[|organs|].id == NewOrganId(|organs|) && types.Some? && organs'[|organs|].organType in types.value
    ensures |pathways| <= |pathways'| <= |pathways| + 2 && forall i :: 0 <= i < |pathways| ==> pathways'[i] == pathways[i]
    ensures Connected(pathways, organs) ==> Connected(pathways', organs')
    ensures IdsAtIndex(organs) ==> IdsAtIndex(organs')
    ensures IdsAtIndex(organs) && Connected(pathways, organs) && DistinctKeys(pathways) ==> DistinctKeys(pathways')
    ensures Grown(organs, pathways, organs', pathways', types, elements, innovationRate, d)
  {
    var pathways1;
    organs', pathways1 := GrowOrgan(organs, pathways, types, elements, innovationRate, d);
    pathways' := GrowPathway(organs', pathways1, innovationRate, d);
    assert pathways'[..|pathways1|] == pathways1;
  }

  /**
   * The gene-level work of mutate once the registry is settled: every organ
   * and pathway point-mutated in place, then structural growth. Organ ids and
   * pathway endpoints of the old genes are kept, so the wiring invariants carry over.
   */
  method MutateGenes(organs: seq<OrganGene>, pathways: seq<PathwayGene>, types: Option<seq<string>>,
                     elements: seq<string>, mutationRate: real, innovationRate: real, d: MutationDraws)
    returns (organs': seq<OrganGene>, pathways': seq<PathwayGene>)
    requires (types.Some? ==> |types.value| > 0) && NoDuplicates(elements)
    ensures |organs| <= |organs'| <= |organs| + 1
    ensures forall i :: 0 <= i < |organs| ==> organs'[i] == MutateOrgan(organs[i], d.organ(i), elements, mutationRate)
    ensures |organs'| > |organs| <==> d.addOrganRoll < innovationRate && types.Some?
    ensures |organs'| > |organs| ==>
              organs'[|organs|].id == NewOrganId(|organs|) && types.Some? && organs'[|organs|].organType in types.value
    ensures |pathways| <= |pathways'| <= |pathways| + 2
    ensures forall i :: 0 <= i < |pathways| ==> pathways'[i] == MutatePathway(pathways[i], d.pathway(i), mutationRate)
    ensures Connected(pathways, organs) ==> Connected(pathways', organs')
    ensures IdsAtIndex(organs) ==> IdsAtIndex(organs')
    ensures IdsAtIndex(organs) && Connected(pathways, organs) && DistinctKeys(pathways) ==> DistinctKeys(pathways')
    ensures Grown(organs, pathways, organs', pathways', types, elements, innovationRate, d)
  {
    var organs0 := PointMutateOrgans(organs, d.organ, elements, mutationRate);
    var pathways0 := PointMutatePathways(pathways, d.pathway, mutationRate);
    PointMutationKeepsWiring(organs, organs0, pathways, pathways0);
    organs', pathways' := Grow(organs0, pathways0, types, elements, innovationRate, d);
    GrownAfterPointMutation(organs, pathways, organs0, pathways0, organs', pathways', types, elements, innovationRate, d);
  }

  /** Point mutation keeps the counts and the organ ids, so growth read off the mutated genes is growth of the originals. */
  lemma GrownAfterPointMutation(organs: seq<OrganGene>, pathways: seq<PathwayGene>,
                                organs0: seq<OrganGene>, pathways0: seq<PathwayGene>,
                                organs': seq<OrganGene>, pathways': seq<PathwayGene>, types: Option<seq<string>>,
                                elements: seq<string>, innovationRate: real, d: MutationDraws)
    requires NoDuplicates(elements)
    requires |organs0| == |organs| && |pathways0| == |pathways| && OrganIds(organs0) == OrganIds(organs)
    requires Grown(organs0, pathways0, organs', pathways', types, elements, innovationRate, d)
    ensures Grown(organs, pathways, organs', pathways', types, elements, innovationRate, d)
  {
  }

  /**
   * mutate: a copy of the genome naming the original as its parent, after
   * organ invention, point mutation of every organ and pathway, and the
   * add-organ and add-pathway steps. The genome passed in is a value and is
   * not changed; the registry is the only state that changes.
   */
  method Mutate(g: Genome, elements: seq<string>, mutationRate: real, innovationRate: real,
                registry: OrganTypeRegistry, d: MutationDraws, idDraw: LineageNumber) returns (m: Genome)
    requires registry.Valid() && NoDuplicates(elements)
    modifies registry
    ensures registry.Valid()
    ensures registry.types == if d.inventRoll < innovationRate * 0.05
                              then Some(Register(SeedOr(old(registry.types)), InventedType(d)))
                              else old(registry.types)
    ensures m.parentIds == [g.lineageId] && m.lineageId == LineageTag(idDraw) && DefaultLifeHistory(m)
    ensures m.developmentalRules == g.developmentalRules
    ensures |g.organs| <= |m.organs| <= |g.organs| + 1
    ensures forall i :: 0 <= i < |g.organs| ==> m.organs[i] == MutateOrgan(g.organs[i], d.organ(i), elements, mutationRate)
    ensures |m.organs| > |g.organs| <==> d.addOrganRoll < innovationRate && registry.types.Some?
    ensures |m.organs| > |g.organs| ==>
              && m.organs[|g.organs|].id == NewOrganId(|g.organs|)
              && registry.types.Some? && m.organs[|g.organs|].organType in registry.types.value
    ensures |g.pathways| <= |m.pathways| <= |g.pathways| + 2
    ensures forall i :: 0 <= i < |g.pathways| ==> m.pathways[i] == MutatePathway(g.pathways[i], d.pathway(i), mutationRate)
    ensures WellFormed(g) ==> WellFormed(m)
    ensures IdsAtIndex(g.organs) ==> IdsAtIndex(m.organs)
    ensures WellFormed(g) && IdsAtIndex(g.organs) && DistinctKeys(g.pathways) ==> DistinctKeys(m.pathways)
    ensures TypesExtend(old(registry.types), registry.types)
    ensures Grown(g.organs, g.pathways, m.organs, m.pathways, registry.types, elements, innovationRate, d)
  {
    var c := Copy(g, idDraw);
    if d.inventRoll < innovationRate * 0.05 {
      registry.RegisterInvented(InventedType(d));
      RegisterExtends(old(registry.types), InventedType(d));
    }
    var organs, pathways := MutateGenes(c.organs, c.pathways, registry.types, elements, mutationRate, innovationRate, d);
    m := c.(organs := organs, pathways := pathways);
  }
}
