/**
 * The genetic blueprint of a lifeform: organ, pathway and developmental-rule
 * genes, the genome record that holds them, and the offspring copy.
 */
module Genomes {
  import opened Text
  import opened Collections

  datatype Position = Position(x: real, y: real, z: real)

  /** A functional unit of a lifeform. */
  datatype OrganGene = OrganGene(
    id: string,
    organType: string,
    size: real,
    efficiency: real,
    materials: map<string, real>,
    color: string,
    position: Position)

  /** A connection between two organs, identified by (source, target). */
  datatype PathwayGene = PathwayGene(
    source: string,
    target: string,
    flowCapacity: real,
    pathwayType: string)

  /** A developmental rule for growing the lifeform from a zygote. */
  datatype EmbryogenesisGene = EmbryogenesisGene(
    ruleType: string,
    trigger: string,
    parameters: map<string, real>)

  /** The complete genome with its life-history and phenotypic fields. */
  datatype Genome = Genome(
    organs: seq<OrganGene>,
    pathways: seq<PathwayGene>,
    developmentalRules: seq<EmbryogenesisGene>,
    lineageId: string,
    parentIds: seq<string>,
    generation: int,
    age: int,
    survivalFitness: real,
    energyBalance: real,
    structuralIntegrity: real,
    sensoryAcuity: real,
    mobility: real,
    reproductivePotential: real,
    cognitiveComplexity: real)

  type Key = (string, string)

  const DefaultColor: string := "#FFFFFF"
  const Origin: Position := Position(0.0, 0.0, 0.0)

  function OrganId(o: OrganGene): string { o.id }

  function PathwayKey(p: PathwayGene): Key { (p.source, p.target) }

  function OrganIds(organs: seq<OrganGene>): set<string> {
    set o | o in organs :: o.id
  }

  function OrganTypes(organs: seq<OrganGene>): (types: seq<string>)
    ensures |types| == |organs| && forall i :: 0 <= i < |organs| ==> types[i] == organs[i].organType
  {
    seq(|organs|, i requires 0 <= i < |organs| => organs[i].organType)
  }

  function KeySet(pathways: seq<PathwayGene>): set<Key> {
    set p | p in pathways :: PathwayKey(p)
  }

  /** No (source, target) key appears twice in a pathway list. */
  predicate DistinctKeys(ps: seq<PathwayGene>) {
    forall i, j :: 0 <= i < j < |ps| ==> PathwayKey(ps[i]) != PathwayKey(ps[j])
  }

  /** Every pathway connects two organs of the list. */
  ghost predicate Connected(pathways: seq<PathwayGene>, organs: seq<OrganGene>) {
    forall p :: p in pathways ==> p.source in OrganIds(organs) && p.target in OrganIds(organs)
  }

  /** Every pathway connects two organs that the genome has. */
  ghost predicate WellFormed(g: Genome) {
    Connected(g.pathways, g.organs)
  }

  /** The default life-history and phenotype fields of a newly built genome. */
  predicate DefaultLifeHistory(g: Genome) {
    && g.generation == 0 && g.age == 0 && g.survivalFitness == 0.0
    && g.energyBalance == 0.0 && g.structuralIntegrity == 0.0 && g.sensoryAcuity == 0.0
    && g.mobility == 0.0 && g.reproductivePotential == 0.0 && g.cognitiveComplexity == 0.0
  }

  /** The organ, pathway and rule lists agree element for element. */
  predicate SameGenes(a: Genome, b: Genome) {
    a.organs == b.organs && a.pathways == b.pathways && a.developmentalRules == b.developmentalRules
  }

  /**
   * __post_init__: a genome built without a lineage id draws a fresh one
   * ("L-" and seven digits, from the number `idDraw`); nothing else changes.
   */
  function PostInit(g: Genome, idDraw: LineageNumber): (r: Genome)
    ensures r.lineageId != ""
    ensures r == g.(lineageId := r.lineageId)
    ensures g.lineageId != "" ==> r == g
    ensures g.lineageId == "" ==> r.lineageId == LineageTag(idDraw)
  {
    if g.lineageId == "" then g.(lineageId := LineageTag(idDraw)) else g
  }

  /** Genome(organs=..., pathways=..., developmental_rules=..., parent_ids=...) with every other field defaulted. */
  function NewGenome(organs: seq<OrganGene>, pathways: seq<PathwayGene>, rules: seq<EmbryogenesisGene>,
                     parentIds: seq<string>, idDraw: LineageNumber): (g: Genome)
    ensures g.organs == organs && g.pathways == pathways && g.developmentalRules == rules
    ensures g.parentIds == parentIds && g.lineageId == LineageTag(idDraw) && DefaultLifeHistory(g)
  {
    PostInit(Genome(organs, pathways, rules, "", parentIds, 0, 0, 0.0, 0.0, 0.0, 0.0, 0.0, 0.0, 0.0), idDraw)
  }

  /**
   * Genome.copy: the offspring carries the parent's genes element for element,
   * names the parent as its only parent, gets a fresh lineage id and starts
   * with default life history. The parent is a value and is not changed.
   */
  function Copy(g: Genome, idDraw: LineageNumber): (c: Genome)
    ensures SameGenes(c, g)
    ensures c.parentIds == [g.lineageId]
    ensures c.lineageId == LineageTag(idDraw) && c.lineageId != ""
    ensures DefaultLifeHistory(c)
    ensures WellFormed(g) ==> WellFormed(c)
  {
    NewGenome(g.organs, g.pathways, g.developmentalRules, [g.lineageId], idDraw)
  }

  /** f"O-{n}": the id of the organ added to a genome with n organs. */
  function NewOrganId(n: nat): (id: string)
    ensures |id| > 2 && id[..2] == "O-"
  {
    "O-" + NatToString(n)
  }

  lemma NewOrganIdInjective(a: nat, b: nat)
    requires NewOrganId(a) == NewOrganId(b)
    ensures a == b
  {
    assert NewOrganId(a)[2..] == NatToString(a) && NewOrganId(b)[2..] == NatToString(b);
    NatToStringInjective(a, b);
  }

  /** Every organ whose id is a structural-growth id "O-j" sits at position j. */
  ghost predicate IdsAtIndex(organs: seq<OrganGene>) {
    forall i, j: nat :: 0 <= i < |organs| && organs[i].id == NewOrganId(j) ==> i == j
  }

  /** Under that invariant the next structural id is not yet taken. */
  lemma NewOrganIdFresh(organs: seq<OrganGene>)
    requires IdsAtIndex(organs)
    ensures NewOrganId(|organs|) !in OrganIds(organs)
  {
    forall o | o in organs
      ensures o.id != NewOrganId(|organs|)
    {
      var i :| 0 <= i < |organs| && organs[i] == o;
    }
  }

  lemma KeySetSingleton(ps: seq<PathwayGene>)
    requires |ps| == 1
    ensures KeySet(ps) == {PathwayKey(ps[0])}
  {
    assert forall p :: p in ps ==> p == ps[0];
  }

  /** An id that does not start with 'O' is no structural id. */
  lemma NotStructuralId(id: string)
    requires |id| > 0 && id[0] != 'O'
    ensures forall j: nat :: id != NewOrganId(j)
  {
    forall j: nat
      ensures id != NewOrganId(j)
    {
      assert NewOrganId(j)[0] == 'O';
    }
  }

  /** The carbon material shared by both protocell organs. */
  const ProtocellMaterial: map<string, real> := map["Carbon" := 0.9, "Hydrogen" := 0.1]

  /**
   * initialize_lifeform: a metabolic core and a membrane joined by one
   * metabolic pathway, and one cell-division rule.
   */
  function Protocell(idDraw: LineageNumber): (g: Genome)
    ensures WellFormed(g) && DefaultLifeHistory(g) && g.parentIds == []
    ensures |g.organs| == 2 && |g.pathways| == 1
  {
    var core := OrganGene("Core", "MetabolicCore", 1.0, 0.1, ProtocellMaterial, "#FFC3A0", Origin);
    var mem := OrganGene("Mem", "Membrane", 0.5, 0.2, ProtocellMaterial, "#FFDFD3", Origin);
    var g := NewGenome([core, mem], [PathwayGene("Core", "Mem", 0.5, "Metabolic")],
                       [EmbryogenesisGene("CellDivision", "Energy > 2.0", map["max_size" := 10.0])], [], idDraw);
    assert OrganIds(g.organs) == {"Core", "Mem"};
    g
  }

  /**
   * The protocell's organs have distinct types and no structural ids, and its
   * one pathway has the key ("Core", "Mem").
   */
  lemma ProtocellShape(idDraw: LineageNumber)
    ensures var g := Protocell(idDraw);
            && NoDuplicates(OrganTypes(g.organs)) && IdsAtIndex(g.organs)
            && KeySet(g.pathways) == {("Core", "Mem")}
  {
    var g := Protocell(idDraw);
    KeySetSingleton(g.pathways);
    NotStructuralId(g.organs[0].id);
    NotStructuralId(g.organs[1].id);
  }

}
