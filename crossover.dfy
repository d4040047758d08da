/**
 * crossover: the child is a copy of parent1 whose organs are blended with
 * parent2's same-id organs and whose pathways are merged NEAT-style, keyed by
 * (source, target).
 */
module Recombination {
  import opened Outcomes
  import opened Text
  import opened Collections
  import opened Genomes

  /**
   * The random draws crossover consumes: one per child organ whose id parent2
   * also has (blend when below 0.5), one per shared key reached by the first,
   * defective merge loop, and one per shared key in the merge (parent1's gene
   * when above 0.5). Draws indexed by positions or keys that consume none are
   * never read.
   */
  datatype CrossoverDraws = CrossoverDraws(blend: nat -> real, firstLoop: Key -> real, share: Key -> real)

  // ---------------------------------------------------------- organ blending

  /**
   * One child organ after blending with parent2's organ map (the last parent2
   * organ of each id). Only size and efficiency can change; they change only
   * when parent2 has the id and the draw is below 0.5, and then each becomes
   * the mean of the two parents' values, which lies between them.
   */
  function BlendOrgan(o: OrganGene, p2: map<string, OrganGene>, draw: real): (r: OrganGene)
    ensures r == o.(size := r.size, efficiency := r.efficiency)
    ensures !(o.id in p2 && draw < 0.5) ==> r == o
    ensures o.id in p2 && draw < 0.5 ==>
              && r.size + r.size == o.size + p2[o.id].size
              && r.efficiency + r.efficiency == o.efficiency + p2[o.id].efficiency
              && (o.size <= r.size <= p2[o.id].size || p2[o.id].size <= r.size <= o.size)
              && (o.efficiency <= r.efficiency <= p2[o.id].efficiency || p2[o.id].efficiency <= r.efficiency <= o.efficiency)
  {
    if o.id in p2 && draw < 0.5 then
      var q := p2[o.id];
      o.(size := (o.size + q.size) / 2.0, efficiency := (o.efficiency + q.efficiency) / 2.0)
    else o
  }

  /** The organ loop of crossover, updating the child's organs in place. */
  method BlendOrgans(organs: seq<OrganGene>, p2: map<string, OrganGene>, draw: nat -> real)
    returns (blended: seq<OrganGene>)
    ensures |blended| == |organs|
    ensures forall i :: 0 <= i < |organs| ==> blended[i] == BlendOrgan(organs[i], p2, draw(i))
    ensures forall i :: 0 <= i < |organs| ==> blended[i].id == organs[i].id
  {
    blended := organs;
    var i := 0;
    while i < |blended|
      invariant 0 <= i <= |blended| == |organs|
      invariant forall j :: 0 <= j < i ==> blended[j] == BlendOrgan(organs[j], p2, draw(j))
      invariant forall j :: i <= j < |organs| ==> blended[j] == organs[j]
    {
      var o := blended[i];
      if o.id in p2 && draw(i) < 0.5 {
        var q := p2[o.id];
        blended := blended[i := o.(size := (o.size + q.size) / 2.0, efficiency := (o.efficiency + q.efficiency) / 2.0)];
      }
      i := i + 1;
    }
  }

  // -------------------------------------------------------- pathway merging

  function KeysOf(ps: seq<PathwayGene>): (keys: seq<Key>)
    ensures |keys| == |ps| && forall i :: 0 <= i < |ps| ==> keys[i] == PathwayKey(ps[i])
  {
    seq(|ps|, i requires 0 <= i < |ps| => PathwayKey(ps[i]))
  }

  /** A p*_paths_map: every gene is stored under its own (source, target) key. */
  predicate KeyedMap(m: map<Key, PathwayGene>) {
    forall k :: k in m ==> PathwayKey(m[k]) == k
  }

  /**
   * Whether the merge keeps a key: always when both parents have it; a
   * disjoint key only from the fitter parent, ties going to parent1.
   */
  predicate Inherited(k: Key, k1: set<Key>, k2: set<Key>, f1: real, f2: real) {
    || (k in k1 && k in k2)
    || (k in k1 && k !in k2 && f1 >= f2)
    || (k !in k1 && k in k2 && f2 > f1)
  }

  /** The gene kept for a key: for a shared key parent1's when the draw is above 0.5, else parent2's. */
  function Chosen(k: Key, m1: map<Key, PathwayGene>, m2: map<Key, PathwayGene>, draw: Key -> real): PathwayGene
    requires k in m1 || k in m2
  {
    if k in m1 && k in m2 then (if draw(k) > 0.5 then m1[k] else m2[k])
    else if k in m1 then m1[k]
    else m2[k]
  }

  /**
   * What the merge of two pathway maps produces, up to the order in which a
   * Python set is iterated: distinct keys, exactly the inherited ones, each
   * carrying its chosen gene.
   */
  ghost predicate Merged(m1: map<Key, PathwayGene>, m2: map<Key, PathwayGene>, f1: real, f2: real,
                         draw: Key -> real, child: seq<PathwayGene>)
  {
    && DistinctKeys(child)
    && (forall k :: k in KeysOf(child) <==> Inherited(k, m1.Keys, m2.Keys, f1, f2))
    && (forall i :: 0 <= i < |child| ==>
          (PathwayKey(child[i]) in m1 || PathwayKey(child[i]) in m2)
          && child[i] == Chosen(PathwayKey(child[i]), m1, m2, draw))
  }

  /** The merge loop's invariant: the keys still to visit, and the child built from the visited ones. */
  ghost predicate MergeInvariant(m1: map<Key, PathwayGene>, m2: map<Key, PathwayGene>, f1: real, f2: real,
                                 draw: Key -> real, remaining: set<Key>, child: seq<PathwayGene>)
  {
    && remaining <= m1.Keys + m2.Keys
    && DistinctKeys(child)
    && (forall k :: k in KeysOf(child) <==> k !in remaining && Inherited(k, m1.Keys, m2.Keys, f1, f2))
    && (forall i :: 0 <= i < |child| ==>
          (PathwayKey(child[i]) in m1 || PathwayKey(child[i]) in m2)
          && child[i] == Chosen(PathwayKey(child[i]), m1, m2, draw))
  }

  /** Visiting one key appends its chosen gene exactly when the key is inherited. */
  lemma MergeStep(m1: map<Key, PathwayGene>, m2: map<Key, PathwayGene>, f1: real, f2: real, draw: Key -> real,
                  remaining: set<Key>, child: seq<PathwayGene>, key: Key, child': seq<PathwayGene>)
    requires KeyedMap(m1) && KeyedMap(m2)
    requires MergeInvariant(m1, m2, f1, f2, draw, remaining, child) && key in remaining
    requires Inherited(key, m1.Keys, m2.Keys, f1, f2) ==> child' == child + [Chosen(key, m1, m2, draw)]
    requires !Inherited(key, m1.Keys, m2.Keys, f1, f2) ==> child' == child
    ensures MergeInvariant(m1, m2, f1, f2, draw, remaining - {key}, child')
  {
    if Inherited(key, m1.Keys, m2.Keys, f1, f2) {
      assert KeysOf(child') == KeysOf(child) + [key];
    }
  }

  /**
   * The pathway merge of crossover over p1_paths_map and p2_paths_map: the
   * union of their keys is visited in an unspecified order and each inherited
   * key appends one gene. Every child key comes from a parent; every shared
   * key is kept; a key of parent1 alone is kept iff parent1 is at least as
   * fit, a key of parent2 alone iff parent2 is strictly fitter; no key is
   * kept twice.
   */
  method MergePathways(m1: map<Key, PathwayGene>, m2: map<Key, PathwayGene>, f1: real, f2: real, draw: Key -> real)
    returns (child: seq<PathwayGene>)
    requires KeyedMap(m1) && KeyedMap(m2)
    ensures Merged(m1, m2, f1, f2, draw, child)
    ensures forall k :: k in KeysOf(child) ==> k in m1 || k in m2
    ensures forall k :: k in m1 && k in m2 ==> k in KeysOf(child)
    ensures forall k :: k in m1 && k !in m2 ==> (k in KeysOf(child) <==> f1 >= f2)
    ensures forall k :: k !in m1 && k in m2 ==> (k in KeysOf(child) <==> f2 > f1)
  {
    var remaining := m1.Keys + m2.Keys;
    child := [];
    while remaining != {}
      invariant MergeInvariant(m1, m2, f1, f2, draw, remaining, child)
      decreases remaining
    {
      var key :| key in remaining;
      ghost var before := child;
      var inP1, inP2 := key in m1, key in m2;
      if inP1 && inP2 {
        var chosen := if draw(key) > 0.5 then m1[key] else m2[key];
        child := child + [chosen];
      } else if inP1 && !inP2 && f1 >= f2 {
        child := child + [m1[key]];
      } else if !inP1 && inP2 && f2 > f1 {
        child := child + [m2[key]];
      }
      MergeStep(m1, m2, f1, f2, draw, remaining, before, key, child);
      remaining := remaining - {key};
    }
  }

  /** Disjoint genes never come from both parents: whichever parent is fitter supplies all of them. */
  lemma DisjointGenesFromOneParent(m1: map<Key, PathwayGene>, m2: map<Key, PathwayGene>, f1: real, f2: real,
                                   draw: Key -> real, child: seq<PathwayGene>, a: Key, b: Key)
    requires Merged(m1, m2, f1, f2, draw, child)
    requires a in m1 && a !in m2 && b !in m1 && b in m2
    ensures !(a in KeysOf(child) && b in KeysOf(child))
  {
  }

  // ------------------------------------------------------------- crossover

  /** Everything crossover promises about the child of parent1 and parent2. */
  ghost predicate CrossoverChild(p1: Genome, p2: Genome, d: CrossoverDraws, idDraw: LineageNumber, child: Genome) {
    && |child.organs| == |p1.organs|
    && (forall i :: 0 <= i < |p1.organs| ==>
          child.organs[i] == BlendOrgan(p1.organs[i], IndexBy(p2.organs, OrganId), d.blend(i)))
    && Merged(IndexBy(p1.pathways, PathwayKey), IndexBy(p2.pathways, PathwayKey),
              p1.survivalFitness, p2.survivalFitness, d.share, child.pathways)
    && child.developmentalRules == p1.developmentalRules
    && child.parentIds == [p1.lineageId]
    && child.lineageId == LineageTag(idDraw)
    && DefaultLifeHistory(child)
  }

  /**
   * crossover with the defective first merge loop removed: the child has
   * parent1's organ ids in parent1's order, blended organs, merged pathways,
   * parent1's rules, and the life history of a fresh copy of parent1.
   */
  method Crossover(p1: Genome, p2: Genome, d: CrossoverDraws, idDraw: LineageNumber) returns (child: Genome)
    ensures CrossoverChild(p1, p2, d, idDraw, child)
    ensures OrganIds(child.organs) == OrganIds(p1.organs)
    ensures forall i :: 0 <= i < |p1.organs| ==> child.organs[i].id == p1.organs[i].id
    ensures IdsAtIndex(p1.organs) ==> IdsAtIndex(child.organs)
  {
    child := Copy(p1, idDraw);
    var organs := BlendOrgans(child.organs, IndexBy(p2.organs, OrganId), d.blend);
    child := child.(organs := organs);
    var pathways := MergePathways(IndexBy(p1.pathways, PathwayKey), IndexBy(p2.pathways, PathwayKey),
                                   p1.survivalFitness, p2.survivalFitness, d.share);
    child := child.(pathways := pathways);
    ChildOrganIds(p1, p2, d, idDraw, child);
  }

  /** Blending never touches an id, so the child keeps parent1's ids index by index, and with them the structural-id invariant. */
  lemma CrossoverChildIds(p1: Genome, p2: Genome, d: CrossoverDraws, idDraw: LineageNumber, child: Genome)
    requires CrossoverChild(p1, p2, d, idDraw, child)
    ensures forall i :: 0 <= i < |p1.organs| ==> child.organs[i].id == p1.organs[i].id
    ensures IdsAtIndex(p1.organs) ==> IdsAtIndex(child.organs)
  {
    forall i | 0 <= i < |p1.organs|
      ensures child.organs[i].id == p1.organs[i].id
    {
      assert child.organs[i] == BlendOrgan(p1.organs[i], IndexBy(p2.organs, OrganId), d.blend(i));
    }
  }

  /** The child has parent1's organ ids. */
  lemma ChildOrganIds(p1: Genome, p2: Genome, d: CrossoverDraws, idDraw: LineageNumber, child: Genome)
    requires CrossoverChild(p1, p2, d, idDraw, child)
    ensures OrganIds(child.organs) == OrganIds(p1.organs)
  {
    forall o | o in child.organs
      ensures o.id in OrganIds(p1.organs)
    {
      var i :| 0 <= i < |child.organs| && child.organs[i] == o;
      assert p1.organs[i] in p1.organs;
    }
    forall o | o in p1.organs
      ensures o.id in OrganIds(child.organs)
    {
      var i :| 0 <= i < |p1.organs| && p1.organs[i] == o;
      assert child.organs[i] in child.organs;
    }
  }

  /**
   * When both parents are well formed and parent2 has no organ parent1
   * lacks, every inherited pathway connects organs of the child.
   */
  lemma CrossoverKeepsWiring(p1: Genome, p2: Genome, d: CrossoverDraws, idDraw: LineageNumber, child: Genome)
    requires CrossoverChild(p1, p2, d, idDraw, child)
    requires WellFormed(p1) && WellFormed(p2) && OrganIds(p2.organs) <= OrganIds(p1.organs)
    ensures WellFormed(child)
  {
    ChildOrganIds(p1, p2, d, idDraw, child);
    var m1, m2 := IndexBy(p1.pathways, PathwayKey), IndexBy(p2.pathways, PathwayKey);
    forall p | p in child.pathways
      ensures p.source in OrganIds(p1.organs) && p.target in OrganIds(p1.organs)
    {
      var i :| 0 <= i < |child.pathways| && child.pathways[i] == p;
      var k := PathwayKey(p);
      assert p == Chosen(k, m1, m2, d.share);
      assert p in p1.pathways || p in p2.pathways;
    }
  }

  /**
   * The wiring can break: a pathway that only a strictly fitter parent2 has
   * is inherited even when its source is an organ that parent1, and so the
   * child, does not have.
   */
  lemma CrossoverCanDangle(p1: Genome, p2: Genome, d: CrossoverDraws, idDraw: LineageNumber, child: Genome, p: PathwayGene)
    requires CrossoverChild(p1, p2, d, idDraw, child)
    requires p in p2.pathways && PathwayKey(p) !in KeySet(p1.pathways)
    requires p.source !in OrganIds(p1.organs) && p2.survivalFitness > p1.survivalFitness
    ensures !WellFormed(child)
  {
    ChildOrganIds(p1, p2, d, idDraw, child);
    var m1, m2 := IndexBy(p1.pathways, PathwayKey), IndexBy(p2.pathways, PathwayKey);
    var k := PathwayKey(p);
    assert k in m2.Keys;
    assert k !in m1.Keys;
    assert k in KeysOf(child.pathways);
    var i :| 0 <= i < |child.pathways| && PathwayKey(child.pathways[i]) == k;
    assert child.pathways[i] in child.pathways;
  }

  // ----------------------------------------------- crossover as written

  /**
   * The first merge loop reads p1_paths_map, which is only assigned after
   * the loop, so Python raises UnboundLocalError at the first visited key
   * that reaches such a read: a key of parent1 alone, or a shared key whose
   * draw is above 0.5 (the conditional expression evaluates its test first).
   */
  predicate FirstLoopRaises(p1s: seq<PathwayGene>, p2s: seq<PathwayGene>, draw: Key -> real) {
    exists k :: k in KeySet(p1s) && (k !in KeySet(p2s) || draw(k) > 0.5)
  }

  /** The first merge loop, visiting the key union in an unspecified order; its appended genes are discarded. */
  method FirstMergeLoop(p1s: seq<PathwayGene>, p2s: seq<PathwayGene>, draw: Key -> real) returns (raised: bool)
    ensures raised <==> FirstLoopRaises(p1s, p2s, draw)
  {
    var p1Keys := KeySet(p1s);
    // only membership in p2_paths_map matters here, so its key set stands for it
    var p2Keys := KeySet(p2s);
    var remaining := p1Keys + p2Keys;
    raised := false;
    while remaining != {}
      invariant remaining <= p1Keys + p2Keys
      invariant !raised
      invariant forall k :: k in p1Keys && k !in remaining ==> k in p2Keys && draw(k) <= 0.5
      decreases remaining
    {
      var key :| key in remaining;
      var fromP1, fromP2 := key in p1Keys, key in p2Keys;
      if fromP1 && (!fromP2 || draw(key) > 0.5) {
        raised := true;
        return;
      }
      remaining := remaining - {key};
    }
  }

  /** crossover as app.py has it: an UnboundLocalError, or the child of the corrected crossover. */
  method CrossoverAsWritten(p1: Genome, p2: Genome, d: CrossoverDraws, idDraw: LineageNumber)
    returns (r: Result<Genome>)
    ensures r.Err? <==> FirstLoopRaises(p1.pathways, p2.pathways, d.firstLoop)
    ensures r.Ok? ==> CrossoverChild(p1, p2, d, idDraw, r.value)
  {
    var child := Copy(p1, idDraw);
    var organs := BlendOrgans(child.organs, IndexBy(p2.organs, OrganId), d.blend);
    child := child.(organs := organs);
    var raised := FirstMergeLoop(p1.pathways, p2.pathways, d.firstLoop);
    if raised {
      return Err("UnboundLocalError: local variable 'p1_paths_map' referenced before assignment");
    }
    var pathways := MergePathways(IndexBy(p1.pathways, PathwayKey), IndexBy(p2.pathways, PathwayKey),
                                   p1.survivalFitness, p2.survivalFitness, d.share);
    r := Ok(child.(pathways := pathways));
  }

  /** A parent1 that has a pathway parent2 lacks always makes the defective loop raise. */
  lemma DisjointParent1KeyRaises(p1s: seq<PathwayGene>, p2s: seq<PathwayGene>, draw: Key -> real, k: Key)
    requires k in KeySet(p1s) && k !in KeySet(p2s)
    ensures FirstLoopRaises(p1s, p2s, draw)
  {
  }

  /**
   * Crossing two protocells, as the first generation of the program does:
   * the defective loop raises whenever the draw for the shared key
   * ("Core", "Mem") is above 0.5, and only then.
   */
  lemma ProtocellCrossoverRaises(a: LineageNumber, b: LineageNumber, draw: Key -> real)
    ensures FirstLoopRaises(Protocell(a).pathways, Protocell(b).pathways, draw) <==> draw(("Core", "Mem")) > 0.5
  {
    ProtocellShape(a);
    ProtocellShape(b);
    SharedSingleKey(Protocell(a).pathways, Protocell(b).pathways, draw, ("Core", "Mem"));
  }

  /** Parents sharing their one pathway key raise exactly when that key's draw is above 0.5. */
  lemma SharedSingleKey(p1s: seq<PathwayGene>, p2s: seq<PathwayGene>, draw: Key -> real, k: Key)
    requires KeySet(p1s) == {k} && KeySet(p2s) == {k}
    ensures FirstLoopRaises(p1s, p2s, draw) <==> draw(k) > 0.5
  {
    if FirstLoopRaises(p1s, p2s, draw) {
      var k' :| k' in KeySet(p1s) && (k' !in KeySet(p2s) || draw(k') > 0.5);
      assert k' == k;
    }
  }

  /** Only a parent with pathways can trip the defective loop. */
  lemma NoPathwaysNoRaise(p1s: seq<PathwayGene>, p2s: seq<PathwayGene>, draw: Key -> real)
    ensures FirstLoopRaises(p1s, p2s, draw) ==> p1s != []
  {
  }
}
