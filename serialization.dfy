/**
 * genome_to_dict / dict_to_genome: a genome flattened to nested Python values
 * (dicts, lists, tuples, strings, numbers) and rebuilt from them.
 */
module Serialization {
  import opened Outcomes
  import opened Text
  import opened Genomes

  /**
   * A Python value as it occurs in the dict form. The three object cases are
   * gene instances: dict_to_genome stores them back into the dict it is given.
   */
  datatype Value =
    | Str(s: string)
    | Float(r: real)
    | Int(i: int)
    | List(items: seq<Value>)
    | Tuple(items: seq<Value>)
    | Dict(entries: map<string, Value>)
    | OrganObject(organ: OrganGene)
    | PathwayObject(pathway: PathwayGene)
    | RuleObject(rule: EmbryogenesisGene)

  const OrganFields: set<string> :=
    {"id", "organ_type", "size", "efficiency", "material_composition", "color", "position"}
  const RequiredOrganFields: set<string> := {"id", "organ_type", "size", "efficiency"}
  const PathwayFields: set<string> := {"source", "target", "flow_capacity", "pathway_type"}
  const RuleFields: set<string> := {"rule_type", "trigger", "parameters"}
  /** The three entries that dict_to_genome rewrites with gene objects. */
  const GeneListFields: set<string> := {"organs", "pathways", "developmental_rules"}
  const GenomeFields: set<string> := GeneListFields +
    {"lineage_id", "parent_ids", "generation", "age", "survival_fitness", "energy_balance",
     "structural_integrity", "sensory_acuity", "mobility", "reproductive_potential", "cognitive_complexity"}

  // ---------------------------------------------------------------- asdict

  function FloatMap(m: map<string, real>): Value {
    Dict(map k | k in m :: Float(m[k]))
  }

  function PositionValue(p: Position): Value {
    Tuple([Float(p.x), Float(p.y), Float(p.z)])
  }

  /** asdict(organ): one entry per OrganGene field. */
  function OrganToDict(o: OrganGene): (v: Value)
    ensures v.Dict? && v.entries.Keys == OrganFields
  {
    Dict(map["id" := Str(o.id), "organ_type" := Str(o.organType), "size" := Float(o.size),
             "efficiency" := Float(o.efficiency), "material_composition" := FloatMap(o.materials),
             "color" := Str(o.color), "position" := PositionValue(o.position)])
  }

  /** asdict(pathway): one entry per PathwayGene field. */
  function PathwayToDict(p: PathwayGene): (v: Value)
    ensures v.Dict? && v.entries.Keys == PathwayFields
  {
    Dict(map["source" := Str(p.source), "target" := Str(p.target),
             "flow_capacity" := Float(p.flowCapacity), "pathway_type" := Str(p.pathwayType)])
  }

  /** asdict(rule): one entry per EmbryogenesisGene field. */
  function RuleToDict(r: EmbryogenesisGene): (v: Value)
    ensures v.Dict? && v.entries.Keys == RuleFields
  {
    Dict(map["rule_type" := Str(r.ruleType), "trigger" := Str(r.trigger),
             "parameters" := FloatMap(r.parameters)])
  }

  function OrganDicts(os: seq<OrganGene>): (items: seq<Value>)
    ensures |items| == |os|
  {
    seq(|os|, i requires 0 <= i < |os| => OrganToDict(os[i]))
  }

  function PathwayDicts(ps: seq<PathwayGene>): (items: seq<Value>)
    ensures |items| == |ps|
  {
    seq(|ps|, i requires 0 <= i < |ps| => PathwayToDict(ps[i]))
  }

  function RuleDicts(rs: seq<EmbryogenesisGene>): (items: seq<Value>)
    ensures |items| == |rs|
  {
    seq(|rs|, i requires 0 <= i < |rs| => RuleToDict(rs[i]))
  }

  function StrList(s: seq<string>): Value {
    List(seq(|s|, i requires 0 <= i < |s| => Str(s[i])))
  }

  /** genome_to_dict: one entry per genome field, genes as lists of dicts. */
  function GenomeToDict(g: Genome): (d: map<string, Value>)
  {
    map["lineage_id" := Str(g.lineageId),
        "parent_ids" := StrList(g.parentIds),
        "generation" := Int(g.generation),
        "age" := Int(g.age),
        "survival_fitness" := Float(g.survivalFitness),
        "energy_balance" := Float(g.energyBalance),
        "structural_integrity" := Float(g.structuralIntegrity),
        "sensory_acuity" := Float(g.sensoryAcuity),
        "mobility" := Float(g.mobility),
        "reproductive_potential" := Float(g.reproductivePotential),
        "cognitive_complexity" := Float(g.cognitiveComplexity),
        "developmental_rules" := List(RuleDicts(g.developmentalRules)),
        "pathways" := List(PathwayDicts(g.pathways)),
        "organs" := List(OrganDicts(g.organs))]
  }

  /** asdict(genome) has exactly one entry per genome field. */
  lemma GenomeToDictKeys(g: Genome)
    ensures GenomeToDict(g).Keys == GenomeFields
  {
  }

  // ------------------------------------------------------ keyword arguments

  function Field(e: map<string, Value>, name: string, default: Value): Value {
    if name in e then e[name] else default
  }

  function AsStr(v: Value): Result<string> {
    if v.Str? then Ok(v.s) else Err("value is not a str")
  }

  function AsFloat(v: Value): Result<real> {
    if v.Float? then Ok(v.r) else Err("value is not a float")
  }

  function AsInt(v: Value): Result<int> {
    if v.Int? then Ok(v.i) else Err("value is not an int")
  }

  function AsFloatMap(v: Value): Result<map<string, real>> {
    if v.Dict? && forall k :: k in v.entries ==> v.entries[k].Float? then
      Ok(map k | k in v.entries :: v.entries[k].r)
    else Err("value is not a dict of floats")
  }

  function AsPosition(v: Value): Result<Position> {
    if v.Tuple? && |v.items| == 3 && v.items[0].Float? && v.items[1].Float? && v.items[2].Float? then
      Ok(Position(v.items[0].r, v.items[1].r, v.items[2].r))
    else Err("value is not a 3-tuple of floats")
  }

  function AsStrList(v: Value): Result<seq<string>> {
    if v.List? && forall i :: 0 <= i < |v.items| ==> v.items[i].Str? then
      Ok(seq(|v.items|, i requires 0 <= i < |v.items| => v.items[i].s))
    else Err("value is not a list of str")
  }

  /** The items a Python for-loop visits, or the TypeError of a non-iterable. */
  function Iterate(v: Value): Result<seq<Value>> {
    match v
    case List(items) => Ok(items)
    case Tuple(items) => Ok(items)
    case Str(s) => Ok(seq(|s|, i requires 0 <= i < |s| => Str([s[i]])))
    case Dict(e) =>
      // iterating a dict visits its keys, and a key is never a mapping
      if e == map[] then Ok([]) else Err("TypeError: argument after ** must be a mapping, not str")
    case _ => Err("TypeError: object is not iterable")
  }

  /** Keyword arguments for a dataclass: no unknown keyword, every required one present. */
  function Keywords(v: Value, fields: set<string>, required: set<string>): Result<map<string, Value>> {
    if !v.Dict? then Err("TypeError: argument after ** must be a mapping")
    else if !(v.entries.Keys <= fields) then Err("TypeError: got an unexpected keyword argument")
    else if !(required <= v.entries.Keys) then Err("TypeError: missing a required argument")
    else Ok(v.entries)
  }

  /** OrganGene(**o). */
  function OrganFromValue(v: Value): (r: Result<OrganGene>)
    ensures r.Ok? ==> && v.Dict? && RequiredOrganFields <= v.entries.Keys <= OrganFields
                      && v.entries["id"] == Str(r.value.id) && v.entries["organ_type"] == Str(r.value.organType)
                      && v.entries["size"] == Float(r.value.size) && v.entries["efficiency"] == Float(r.value.efficiency)
    ensures !v.Dict? ==> r.Err?
  {
    var e :- Keywords(v, OrganFields, RequiredOrganFields);
    var id :- AsStr(e["id"]);
    var organType :- AsStr(e["organ_type"]);
    var size :- AsFloat(e["size"]);
    var efficiency :- AsFloat(e["efficiency"]);
    var materials :- AsFloatMap(Field(e, "material_composition", Dict(map[])));
    var color :- AsStr(Field(e, "color", Str(DefaultColor)));
    var position :- AsPosition(Field(e, "position", PositionValue(Origin)));
    Ok(OrganGene(id, organType, size, efficiency, materials, color, position))
  }

  /** PathwayGene(**p): every field is required. */
  function PathwayFromValue(v: Value): (r: Result<PathwayGene>)
    ensures r.Ok? <==> && v.Dict? && v.entries.Keys == PathwayFields
                       && v.entries["source"].Str? && v.entries["target"].Str?
                       && v.entries["flow_capacity"].Float? && v.entries["pathway_type"].Str?
    ensures r.Ok? ==> && v.entries["source"] == Str(r.value.source) && v.entries["target"] == Str(r.value.target)
                      && v.entries["flow_capacity"] == Float(r.value.flowCapacity)
                      && v.entries["pathway_type"] == Str(r.value.pathwayType)
  {
    var e :- Keywords(v, PathwayFields, PathwayFields);
    var source :- AsStr(e["source"]);
    var target :- AsStr(e["target"]);
    var flow :- AsFloat(e["flow_capacity"]);
    var pathwayType :- AsStr(e["pathway_type"]);
    Ok(PathwayGene(source, target, flow, pathwayType))
  }

  /** EmbryogenesisGene(**dr): every field is required. */
  function RuleFromValue(v: Value): (r: Result<EmbryogenesisGene>)
    ensures r.Ok? ==> && v.Dict? && v.entries.Keys == RuleFields
                      && v.entries["rule_type"] == Str(r.value.ruleType) && v.entries["trigger"] == Str(r.value.trigger)
    ensures !v.Dict? ==> r.Err?
  {
    var e :- Keywords(v, RuleFields, RuleFields);
    var ruleType :- AsStr(e["rule_type"]);
    var trigger :- AsStr(e["trigger"]);
    var parameters :- AsFloatMap(e["parameters"]);
    Ok(EmbryogenesisGene(ruleType, trigger, parameters))
  }

  function OrgansFromItems(items: seq<Value>): (r: Result<seq<OrganGene>>)
    ensures r.Ok? ==> |r.value| == |items|
  {
    if items == [] then Ok([])
    else
      var o :- OrganFromValue(items[0]);
      var rest :- OrgansFromItems(items[1..]);
      Ok([o] + rest)
  }

  function PathwaysFromItems(items: seq<Value>): (r: Result<seq<PathwayGene>>)
    ensures r.Ok? ==> |r.value| == |items|
  {
    if items == [] then Ok([])
    else
      var p :- PathwayFromValue(items[0]);
      var rest :- PathwaysFromItems(items[1..]);
      Ok([p] + rest)
  }

  function RulesFromItems(items: seq<Value>): (r: Result<seq<EmbryogenesisGene>>)
    ensures r.Ok? ==> |r.value| == |items|
  {
    if items == [] then Ok([])
    else
      var dr :- RuleFromValue(items[0]);
      var rest :- RulesFromItems(items[1..]);
      Ok([dr] + rest)
  }

  /** The organ list decodes iff every item does, and then item by item in order. */
  lemma {:induction false} OrgansFromItemsElementwise(items: seq<Value>)
    ensures OrgansFromItems(items).Ok? <==> forall i :: 0 <= i < |items| ==> OrganFromValue(items[i]).Ok?
    ensures OrgansFromItems(items).Ok? ==>
              forall i :: 0 <= i < |items| ==> OrganFromValue(items[i]) == Ok(OrgansFromItems(items).value[i])
  {
    if items != [] {
      OrgansFromItemsElementwise(items[1..]);
      assert forall i :: 1 <= i < |items| ==> items[i] == items[1..][i - 1];
    }
  }

  /** The pathway list decodes iff every item does, and then item by item in order. */
  lemma {:induction false} PathwaysFromItemsElementwise(items: seq<Value>)
    ensures PathwaysFromItems(items).Ok? <==> forall i :: 0 <= i < |items| ==> PathwayFromValue(items[i]).Ok?
    ensures PathwaysFromItems(items).Ok? ==>
              forall i :: 0 <= i < |items| ==> PathwayFromValue(items[i]) == Ok(PathwaysFromItems(items).value[i])
  {
    if items != [] {
      PathwaysFromItemsElementwise(items[1..]);
      assert forall i :: 1 <= i < |items| ==> items[i] == items[1..][i - 1];
    }
  }

  /** The rule list decodes iff every item does, and then item by item in order. */
  lemma {:induction false} RulesFromItemsElementwise(items: seq<Value>)
    ensures RulesFromItems(items).Ok? <==> forall i :: 0 <= i < |items| ==> RuleFromValue(items[i]).Ok?
    ensures RulesFromItems(items).Ok? ==>
              forall i :: 0 <= i < |items| ==> RuleFromValue(items[i]) == Ok(RulesFromItems(items).value[i])
  {
    if items != [] {
      RulesFromItemsElementwise(items[1..]);
      assert forall i :: 1 <= i < |items| ==> items[i] == items[1..][i - 1];
    }
  }

  function OrganObjects(os: seq<OrganGene>): Value {
    List(seq(|os|, i requires 0 <= i < |os| => OrganObject(os[i])))
  }

  function PathwayObjects(ps: seq<PathwayGene>): Value {
    List(seq(|ps|, i requires 0 <= i < |ps| => PathwayObject(ps[i])))
  }

  function RuleObjects(rs: seq<EmbryogenesisGene>): Value {
    List(seq(|rs|, i requires 0 <= i < |rs| => RuleObject(rs[i])))
  }

  /** Genome(**d) once the gene lists are objects: the remaining fields or their defaults, then __post_init__. */
  function GenomeFromKeywords(d: map<string, Value>, organs: seq<OrganGene>, pathways: seq<PathwayGene>,
                              rules: seq<EmbryogenesisGene>, idDraw: LineageNumber): (r: Result<Genome>)
    ensures r.Ok? ==> && r.value.organs == organs && r.value.pathways == pathways
                      && r.value.developmentalRules == rules && r.value.lineageId != ""
  {
    if !(d.Keys <= GenomeFields) then Err("TypeError: got an unexpected keyword argument")
    else
      var lineageId :- AsStr(Field(d, "lineage_id", Str("")));
      var parentIds :- AsStrList(Field(d, "parent_ids", List([])));
      var generation :- AsInt(Field(d, "generation", Int(0)));
      var age :- AsInt(Field(d, "age", Int(0)));
      var fitness :- AsFloat(Field(d, "survival_fitness", Float(0.0)));
      var energy :- AsFloat(Field(d, "energy_balance", Float(0.0)));
      var integrity :- AsFloat(Field(d, "structural_integrity", Float(0.0)));
      var acuity :- AsFloat(Field(d, "sensory_acuity", Float(0.0)));
      var mobility :- AsFloat(Field(d, "mobility", Float(0.0)));
      var reproductive :- AsFloat(Field(d, "reproductive_potential", Float(0.0)));
      var cognitive :- AsFloat(Field(d, "cognitive_complexity", Float(0.0)));
      Ok(PostInit(Genome(organs, pathways, rules, lineageId, parentIds, generation, age, fitness,
                         energy, integrity, acuity, mobility, reproductive, cognitive), idDraw))
  }

  /** What dict_to_genome returns, and the dict it was given as the call leaves it. */
  datatype Decoded = Decoded(genome: Result<Genome>, dict: map<string, Value>)

  /**
   * dict_to_genome. The organ, pathway and rule entries of the given dict are
   * replaced, one after the other, by lists of gene objects (a missing entry
   * counts as an empty list); a failure leaves the entries rewritten so far.
   * Every other entry is untouched, and a rebuilt genome always has a lineage id.
   */
  function DictToGenome(d: map<string, Value>, idDraw: LineageNumber): (r: Decoded)
    ensures r.dict.Keys <= d.Keys + GeneListFields
    ensures forall k :: k in d && k !in GeneListFields ==> k in r.dict && r.dict[k] == d[k]
    ensures r.genome.Ok? ==>
              && GeneListFields <= r.dict.Keys
              && r.dict["organs"] == OrganObjects(r.genome.value.organs)
              && r.dict["pathways"] == PathwayObjects(r.genome.value.pathways)
              && r.dict["developmental_rules"] == RuleObjects(r.genome.value.developmentalRules)
              && r.genome.value.lineageId != ""
  {
    var organItems := Iterate(Field(d, "organs", List([])));
    var organs := if organItems.Ok? then OrgansFromItems(organItems.value) else Err(organItems.error);
    if organs.Err? then Decoded(Err(organs.error), d)
    else DecodePathways(d["organs" := OrganObjects(organs.value)], organs.value, idDraw)
  }

  /** The pathway stage of dict_to_genome, after the organ entry has been rewritten. */
  function DecodePathways(d: map<string, Value>, organs: seq<OrganGene>, idDraw: LineageNumber): (r: Decoded)
    requires "organs" in d
    ensures r.dict.Keys <= d.Keys + GeneListFields
    ensures forall k :: k in d && k !in GeneListFields - {"organs"} ==> k in r.dict && r.dict[k] == d[k]
    ensures r.genome.Ok? ==>
              && GeneListFields <= r.dict.Keys
              && r.genome.value.organs == organs
              && r.dict["pathways"] == PathwayObjects(r.genome.value.pathways)
              && r.dict["developmental_rules"] == RuleObjects(r.genome.value.developmentalRules)
              && r.genome.value.lineageId != ""
  {
    var items := Iterate(Field(d, "pathways", List([])));
    var pathways := if items.Ok? then PathwaysFromItems(items.value) else Err(items.error);
    if pathways.Err? then Decoded(Err(pathways.error), d)
    else DecodeRules(d["pathways" := PathwayObjects(pathways.value)], organs, pathways.value, idDraw)
  }

  /** The rule stage of dict_to_genome, followed by Genome(**d). */
  function DecodeRules(d: map<string, Value>, organs: seq<OrganGene>, pathways: seq<PathwayGene>,
                       idDraw: LineageNumber): (r: Decoded)
    requires "organs" in d && "pathways" in d
    ensures r.dict.Keys <= d.Keys + GeneListFields
    ensures forall k :: k in d && k != "developmental_rules" ==> k in r.dict && r.dict[k] == d[k]
    ensures r.genome.Ok? ==>
              && GeneListFields <= r.dict.Keys
              && r.genome.value.organs == organs && r.genome.value.pathways == pathways
              && r.dict["developmental_rules"] == RuleObjects(r.genome.value.developmentalRules)
              && r.genome.value.lineageId != ""
  {
    var items := Iterate(Field(d, "developmental_rules", List([])));
    var rules := if items.Ok? then RulesFromItems(items.value) else Err(items.error);
    if rules.Err? then Decoded(Err(rules.error), d)
    else
      var d' := d["developmental_rules" := RuleObjects(rules.value)];
      Decoded(GenomeFromKeywords(d', organs, pathways, rules.value, idDraw), d')
  }

  // ------------------------------------------------------------ round trip

  lemma FloatMapRoundTrip(m: map<string, real>)
    ensures AsFloatMap(FloatMap(m)) == Ok(m)
  {
    var e := FloatMap(m).entries;
    var back := map k | k in e :: e[k].r;
    assert back.Keys == m.Keys;
    assert back == m;
  }

  lemma StrListRoundTrip(s: seq<string>)
    ensures AsStrList(StrList(s)) == Ok(s)
  {
    var items := StrList(s).items;
    assert seq(|items|, i requires 0 <= i < |items| => items[i].s) == s;
  }

  lemma OrganRoundTrip(o: OrganGene)
    ensures OrganFromValue(OrganToDict(o)) == Ok(o)
  {
    FloatMapRoundTrip(o.materials);
  }

  lemma RuleRoundTrip(r: EmbryogenesisGene)
    ensures RuleFromValue(RuleToDict(r)) == Ok(r)
  {
    FloatMapRoundTrip(r.parameters);
  }

  lemma {:induction false} OrgansRoundTrip(os: seq<OrganGene>)
    ensures OrgansFromItems(OrganDicts(os)) == Ok(os)
  {
    var items := OrganDicts(os);
    if os != [] {
      OrganRoundTrip(os[0]);
      assert items[1..] == OrganDicts(os[1..]);
      OrgansRoundTrip(os[1..]);
      assert os == [os[0]] + os[1..];
    }
  }

  lemma {:induction false} PathwaysRoundTrip(ps: seq<PathwayGene>)
    ensures PathwaysFromItems(PathwayDicts(ps)) == Ok(ps)
  {
    var items := PathwayDicts(ps);
    if ps != [] {
      assert PathwayFromValue(items[0]) == Ok(ps[0]);
      assert items[1..] == PathwayDicts(ps[1..]);
      PathwaysRoundTrip(ps[1..]);
      assert ps == [ps[0]] + ps[1..];
    }
  }

  lemma {:induction false} RulesRoundTrip(rs: seq<EmbryogenesisGene>)
    ensures RulesFromItems(RuleDicts(rs)) == Ok(rs)
  {
    var items := RuleDicts(rs);
    if rs != [] {
      RuleRoundTrip(rs[0]);
      assert items[1..] == RuleDicts(rs[1..]);
      RulesRoundTrip(rs[1..]);
      assert rs == [rs[0]] + rs[1..];
    }
  }

  /**
   * dict_to_genome(genome_to_dict(g)) rebuilds g field for field, except that
   * a genome without a lineage id gets a fresh one from __post_init__.
   */
  lemma DictRoundTrip(g: Genome, idDraw: LineageNumber)
    ensures DictToGenome(GenomeToDict(g), idDraw).genome == Ok(PostInit(g, idDraw))
  {
    var d := GenomeToDict(g);
    var d1 := d["organs" := OrganObjects(g.organs)];
    var d2 := d1["pathways" := PathwayObjects(g.pathways)];
    assert "organs" in d && d["organs"] == List(OrganDicts(g.organs));
    OrgansStage(d, g.organs, idDraw);
    assert "pathways" in d1 && d1["pathways"] == List(PathwayDicts(g.pathways));
    PathwaysStage(d1, g.organs, g.pathways, idDraw);
    RulesStage(g, d2, idDraw);
  }

  lemma OrgansStage(d: map<string, Value>, os: seq<OrganGene>, idDraw: LineageNumber)
    requires "organs" in d && d["organs"] == List(OrganDicts(os))
    ensures DictToGenome(d, idDraw) == DecodePathways(d["organs" := OrganObjects(os)], os, idDraw)
  {
    OrgansRoundTrip(os);
    assert Field(d, "organs", List([])) == List(OrganDicts(os));
  }

  lemma PathwaysStage(d: map<string, Value>, os: seq<OrganGene>, ps: seq<PathwayGene>, idDraw: LineageNumber)
    requires "organs" in d && "pathways" in d && d["pathways"] == List(PathwayDicts(ps))
    ensures DecodePathways(d, os, idDraw) == DecodeRules(d["pathways" := PathwayObjects(ps)], os, ps, idDraw)
  {
    PathwaysRoundTrip(ps);
    assert Field(d, "pathways", List([])) == List(PathwayDicts(ps));
  }

  lemma RulesStage(g: Genome, d: map<string, Value>, idDraw: LineageNumber)
    requires d == GenomeToDict(g)["organs" := OrganObjects(g.organs)]["pathways" := PathwayObjects(g.pathways)]
    ensures DecodeRules(d, g.organs, g.pathways, idDraw).genome == Ok(PostInit(g, idDraw))
  {
    RulesRoundTrip(g.developmentalRules);
    assert Iterate(Field(d, "developmental_rules", List([]))) == Ok(GenomeToDict(g)["developmental_rules"].items);
    assert d["developmental_rules" := RuleObjects(g.developmentalRules)] == RewrittenDict(g);
    KeywordsRoundTrip(g, idDraw);
  }

  /** The dict as Genome(**d) receives it in the round trip: the three gene entries already rewritten. */
  function RewrittenDict(g: Genome): map<string, Value> {
    GenomeToDict(g)["organs" := OrganObjects(g.organs)]["pathways" := PathwayObjects(g.pathways)]
                   ["developmental_rules" := RuleObjects(g.developmentalRules)]
  }

  lemma KeywordsRoundTrip(g: Genome, idDraw: LineageNumber)
    ensures GenomeFromKeywords(RewrittenDict(g), g.organs, g.pathways, g.developmentalRules, idDraw) == Ok(PostInit(g, idDraw))
  {
    assert RewrittenDict(g).Keys == GenomeFields;
    LineageEntries(g);
    StrListRoundTrip(g.parentIds);
    AgeEntries(g);
    FitnessEntries(g);
    IntegrityEntries(g);
    MobilityEntries(g);
    ComplexityEntries(g);
  }

  lemma LineageEntries(g: Genome)
    ensures var d := RewrittenDict(g);
            && "lineage_id" in d && d["lineage_id"] == Str(g.lineageId)
            && "parent_ids" in d && d["parent_ids"] == StrList(g.parentIds)
  {
  }

  lemma AgeEntries(g: Genome)
    ensures var d := RewrittenDict(g);
            && "generation" in d && d["generation"] == Int(g.generation)
            && "age" in d && d["age"] == Int(g.age)
  {
  }

  lemma FitnessEntries(g: Genome)
    ensures var d := RewrittenDict(g);
            && "survival_fitness" in d && d["survival_fitness"] == Float(g.survivalFitness)
            && "energy_balance" in d && d["energy_balance"] == Float(g.energyBalance)
  {
  }

  lemma IntegrityEntries(g: Genome)
    ensures var d := RewrittenDict(g);
            && "structural_integrity" in d && d["structural_integrity"] == Float(g.structuralIntegrity)
            && "sensory_acuity" in d && d["sensory_acuity"] == Float(g.sensoryAcuity)
  {
  }

  lemma MobilityEntries(g: Genome)
    ensures var d := RewrittenDict(g);
            && "mobility" in d && d["mobility"] == Float(g.mobility)
            && "reproductive_potential" in d && d["reproductive_potential"] == Float(g.reproductivePotential)
  {
  }

  lemma ComplexityEntries(g: Genome)
    ensures var d := RewrittenDict(g);
            && "cognitive_complexity" in d && d["cognitive_complexity"] == Float(g.cognitiveComplexity)
  {
  }

  /** With a lineage id, the round trip is the identity. */
  lemma DictRoundTripIdentity(g: Genome, idDraw: LineageNumber)
    requires g.lineageId != ""
    ensures DictToGenome(GenomeToDict(g), idDraw).genome == Ok(g)
  {
    DictRoundTrip(g, idDraw);
  }

  /**
   * Because dict_to_genome rewrites its argument, decoding the same dict a
   * second time fails as soon as the genome has an organ: **o is applied to
   * an OrganGene instance, which is not a mapping.
   */
  lemma DecodingTwiceFails(g: Genome, first: LineageNumber, second: LineageNumber)
    requires g.organs != []
    ensures DictToGenome(GenomeToDict(g), first).genome.Ok?
    ensures DictToGenome(DictToGenome(GenomeToDict(g), first).dict, second).genome.Err?
  {
    DictRoundTrip(g, first);
    var once := DictToGenome(GenomeToDict(g), first);
    assert once.genome.value.organs == g.organs;
    OrganObjectsRejected(once.dict, g.organs, second);
  }

  /** An organ entry that already holds gene objects cannot be decoded: **o needs a mapping. */
  lemma OrganObjectsRejected(d: map<string, Value>, os: seq<OrganGene>, idDraw: LineageNumber)
    requires os != [] && "organs" in d && d["organs"] == OrganObjects(os)
    ensures DictToGenome(d, idDraw).genome.Err?
  {
    var items := OrganObjects(os).items;
    assert Iterate(Field(d, "organs", List([]))) == Ok(items);
    assert OrganFromValue(items[0]).Err?;
  }
}
