/**
 * One generation of the evolution loop after fitness evaluation: sort the
 * population by descending fitness in place, keep the top fraction, and
 * refill with mutated crossover offspring of random survivors.
 */
module Evolution {
  import opened Outcomes
  import opened Text
  import opened Collections
  import opened Genomes
  import opened Recombination
  import opened Mutation

  /** Each genome is at least as fit as the next one. */
  predicate DescendingByFitness(s: seq<Genome>) {
    forall i :: 0 < i < |s| ==> s[i - 1].survivalFitness >= s[i].survivalFitness
  }

  /** In a descending population every earlier genome is at least as fit as every later one. */
  lemma {:induction false} DescendingPairwise(s: seq<Genome>, i: nat, j: nat)
    requires DescendingByFitness(s) && i <= j < |s|
    ensures s[i].survivalFitness >= s[j].survivalFitness
    decreases j - i
  {
    if i < j {
      DescendingPairwise(s, i + 1, j);
      assert s[i].survivalFitness >= s[i + 1].survivalFitness;
    }
  }

  /** Exchanges two elements and nothing else. */
  method Swap(a: array<Genome>, i: nat, j: nat)
    requires i < j < a.Length
    modifies a
    ensures a[..] == old(a[..])[i := old(a[j])][j := old(a[i])]
    ensures multiset(a[..]) == multiset(old(a[..]))
  {
    a[i], a[j] := a[j], a[i];
  }

  /** The first n genomes are ordered by descending fitness. */
  ghost predicate SortedPrefix(a: array<Genome>, n: int)
    reads a
  {
    forall k :: 0 < k < n && k < a.Length ==> a[k - 1].survivalFitness >= a[k].survivalFitness
  }

  /** One insertion step: a[i] sinks left past every less fit genome, so the first i + 1 are ordered. */
  method Insert(a: array<Genome>, i: nat)
    requires i < a.Length && SortedPrefix(a, i)
    modifies a
    ensures SortedPrefix(a, i + 1)
    ensures multiset(a[..]) == multiset(old(a[..]))
  {
    var j := i;
    while j > 0 && a[j - 1].survivalFitness < a[j].survivalFitness
      invariant 0 <= j <= i
      invariant forall k :: 0 < k <= i && k != j ==> a[k - 1].survivalFitness >= a[k].survivalFitness
      invariant 0 < j < i ==> a[j - 1].survivalFitness >= a[j + 1].survivalFitness
      invariant multiset(a[..]) == multiset(old(a[..]))
    {
      Swap(a, j - 1, j);
      j := j - 1;
    }
  }

  /** population.sort(key=survival_fitness, reverse=True), as an insertion sort in place. */
  method SortByFitnessDescending(a: array<Genome>)
    modifies a
    ensures DescendingByFitness(a[..])
    ensures multiset(a[..]) == multiset(old(a[..]))
  {
    var i := 0;
    while i < a.Length
      invariant 0 <= i <= a.Length
      invariant SortedPrefix(a, i)
      invariant multiset(a[..]) == multiset(old(a[..]))
    {
      Insert(a, i);
      i := i + 1;
    }
  }

  /** int(n * pressure): the number of survivors, never more than the population. */
  function NumSurvivors(n: nat, pressure: real): (k: nat)
    requires 0.0 <= pressure <= 1.0
    ensures k <= n
    ensures k as real <= n as real * pressure < k as real + 1.0
  {
    assert n as real * pressure <= n as real * 1.0;
    (n as real * pressure).Floor
  }

  /** The random values one offspring consumes: two survivor picks, then crossover and mutate. */
  datatype OffspringDraws = OffspringDraws(
    parent1: nat, parent2: nat,
    crossover: CrossoverDraws, crossoverId: LineageNumber,
    mutation: MutationDraws, mutationId: LineageNumber)

  /**
   * What every offspring of a generation step is, relative to the survivors
   * it came from: a fresh member of the next generation carrying the rules
   * of its first parent and that parent's organ ids at the same positions,
   * plus at most one new organ.
   */
  ghost predicate Offspring(o: Genome, survivors: seq<Genome>, gen: nat) {
    && o.generation == gen + 1
    && o.survivalFitness == 0.0 && o.age == 0
    && (exists s :: s in survivors && o.developmentalRules == s.developmentalRules
                                   && |s.organs| <= |o.organs| <= |s.organs| + 1
                                   && forall i :: 0 <= i < |s.organs| ==> o.organs[i].id == s.organs[i].id)
    && ((forall s :: s in survivors ==> IdsAtIndex(s.organs)) ==> IdsAtIndex(o.organs))
  }

  /**
   * An offspring tied to the survivor its draws pick as first parent: that
   * parent's rules, and its organ ids at the same positions plus at most one
   * new organ.
   */
  ghost predicate FromFirstParent(o: Genome, survivors: seq<Genome>, d: OffspringDraws)
    requires |survivors| > 0
  {
    var s := Choice(survivors, d.parent1);
    && o.developmentalRules == s.developmentalRules
    && |s.organs| <= |o.organs| <= |s.organs| + 1
    && forall i :: 0 <= i < |s.organs| ==> o.organs[i].id == s.organs[i].id
  }

  /** The crossover of an offspring's two picked survivors reaches the defective first merge loop's raise. */
  predicate CrossoverRaises(survivors: seq<Genome>, d: OffspringDraws) {
    |survivors| > 0 && FirstLoopRaises(Choice(survivors, d.parent1).pathways, Choice(survivors, d.parent2).pathways,
                                       d.crossover.firstLoop)
  }

  /**
   * Survivors that all have only the protocell's pathway key: an offspring's
   * crossover raises exactly when its draw for that key is above 0.5.
   */
  lemma ProtocellSurvivorsRaise(survivors: seq<Genome>, d: OffspringDraws)
    requires |survivors| > 0 && forall s :: s in survivors ==> KeySet(s.pathways) == {("Core", "Mem")}
    ensures CrossoverRaises(survivors, d) <==> d.crossover.firstLoop(("Core", "Mem")) > 0.5
  {
    var p1, p2 := Choice(survivors, d.parent1), Choice(survivors, d.parent2);
    assert p1 in survivors && p2 in survivors;
    SharedSingleKey(p1.pathways, p2.pathways, d.crossover.firstLoop, ("Core", "Mem"));
  }

  /**
   * One pass of the reproduction loop: pick two random survivors, cross them
   * over, mutate the child and stamp the next generation number on it.
   * crossover raises UnboundLocalError whenever its first merge loop does.
   */
  method Breed(survivors: seq<Genome>, gen: nat, elements: seq<string>, mutationRate: real, innovationRate: real,
               registry: OrganTypeRegistry, d: OffspringDraws)
    returns (r: Result<Genome>)
    requires |survivors| > 0 && registry.Valid() && NoDuplicates(elements)
    modifies registry
    ensures registry.Valid() && TypesExtend(old(registry.types), registry.types)
    ensures r.Err? <==> CrossoverRaises(survivors, d)
    ensures r.Ok? ==> Offspring(r.value, survivors, gen) && FromFirstParent(r.value, survivors, d)
  {
    var p1 := Choice(survivors, d.parent1);
    var p2 := Choice(survivors, d.parent2);
    var crossed := CrossoverAsWritten(p1, p2, d.crossover, d.crossoverId);
    if crossed.Err? {
      return Err(crossed.error);
    }
    var child := crossed.value;
    CrossoverChildIds(p1, p2, d.crossover, d.crossoverId, child);
    var mutant := Mutate(child, elements, mutationRate, innovationRate, registry, d.mutation, d.mutationId);
    assert forall i :: 0 <= i < |child.organs| ==> mutant.organs[i].id == child.organs[i].id;
    MutantIsOffspring(survivors, p1, child, mutant, gen);
    r := Ok(mutant.(generation := gen + 1));
  }

  /** A mutated crossover child of a survivor, stamped with the next generation, is an offspring of the survivors. */
  lemma MutantIsOffspring(survivors: seq<Genome>, p1: Genome, child: Genome, mutant: Genome, gen: nat)
    requires p1 in survivors && child.developmentalRules == p1.developmentalRules
    requires |child.organs| == |p1.organs| && forall i :: 0 <= i < |p1.organs| ==> child.organs[i].id == p1.organs[i].id
    requires IdsAtIndex(p1.organs) ==> IdsAtIndex(child.organs)
    requires mutant.developmentalRules == child.developmentalRules && DefaultLifeHistory(mutant)
    requires |child.organs| <= |mutant.organs| <= |child.organs| + 1
    requires forall i :: 0 <= i < |child.organs| ==> mutant.organs[i].id == child.organs[i].id
    requires IdsAtIndex(child.organs) ==> IdsAtIndex(mutant.organs)
    ensures Offspring(mutant.(generation := gen + 1), survivors, gen)
  {
  }

  /** What one successful pass of the refill loop body leaves: a non-raising crossover's offspring of the first parent. */
  ghost predicate Bred(o: Genome, survivors: seq<Genome>, gen: nat, d: OffspringDraws)
  {
    && |survivors| > 0
    && !CrossoverRaises(survivors, d)
    && Offspring(o, survivors, gen)
    && FromFirstParent(o, survivors, d)
  }

  /**
   * The reproduction loop: breed until `count` offspring exist.
   * random.choice raises on an empty survivor list, and the first breeding
   * error ends the loop.
   */
  method Reproduce(survivors: seq<Genome>, count: int, gen: nat, elements: seq<string>,
                   mutationRate: real, innovationRate: real, registry: OrganTypeRegistry,
                   draws: nat -> OffspringDraws)
    returns (r: Result<seq<Genome>>)
    requires registry.Valid() && NoDuplicates(elements)
    modifies registry
    ensures registry.Valid() && TypesExtend(old(registry.types), registry.types)
    ensures r.Err? <==> count > 0 && (|survivors| == 0 || exists i :: 0 <= i < count && CrossoverRaises(survivors, draws(i)))
    ensures r.Ok? ==> |r.value| == (if count > 0 then count else 0)
    ensures r.Ok? ==> forall o :: o in r.value ==> Offspring(o, survivors, gen)
    ensures r.Ok? ==> forall i :: 0 <= i < |r.value| ==> FromFirstParent(r.value[i], survivors, draws(i))
  {
    if count > 0 && |survivors| == 0 {
      return Err("IndexError: Cannot choose from an empty sequence");
    }
    var offspring := [];
    while |offspring| < count
      invariant registry.Valid() && TypesExtend(old(registry.types), registry.types)
      invariant |offspring| <= if count > 0 then count else 0
      invariant forall i :: 0 <= i < |offspring| ==> Bred(offspring[i], survivors, gen, draws(i))
      decreases count - |offspring|
    {
      ghost var before := registry.types;
      var bred := Breed(survivors, gen, elements, mutationRate, innovationRate, registry, draws(|offspring|));
      TypesExtendTransitive(old(registry.types), before, registry.types);
      if bred.Err? {
        return Err(bred.error);
      }
      offspring := offspring + [bred.value];
    }
    assert forall o :: o in offspring ==> Offspring(o, survivors, gen) by {
      forall o | o in offspring
        ensures Offspring(o, survivors, gen)
      {
        var i :| 0 <= i < |offspring| && offspring[i] == o;
        assert Bred(offspring[i], survivors, gen, draws(i));
      }
    }
    r := Ok(offspring);
  }

  /** Appending the bred offspring after the survivors keeps the survivors as the prefix and each offspring's facts at its shifted index. */
  lemma RefillKeepsOffspring(survivors: seq<Genome>, offspring: seq<Genome>, gen: nat)
    requires forall o :: o in offspring ==> Offspring(o, survivors, gen)
    ensures (survivors + offspring)[..|survivors|] == survivors
    ensures forall i :: |survivors| <= i < |survivors| + |offspring| ==>
              Offspring((survivors + offspring)[i], survivors, gen)
  {
    assert (survivors + offspring)[..|survivors|] == survivors;
    forall i | |survivors| <= i < |survivors| + |offspring|
      ensures Offspring((survivors + offspring)[i], survivors, gen)
    {
      assert (survivors + offspring)[i] in offspring;
    }
  }

  /** Offspring i of the refill sits at index |survivors| + i of the next population, still descending from the first parent draw i picks. */
  lemma RefillKeepsFirstParents(survivors: seq<Genome>, offspring: seq<Genome>, draws: nat -> OffspringDraws)
    requires |offspring| > 0 ==> |survivors| > 0
    requires forall i :: 0 <= i < |offspring| ==> FromFirstParent(offspring[i], survivors, draws(i))
    ensures forall i :: 0 <= i < |offspring| ==>
              |survivors| > 0 && FromFirstParent((survivors + offspring)[|survivors| + i], survivors, draws(i))
  {
    forall i | 0 <= i < |offspring|
      ensures |survivors| > 0 && FromFirstParent((survivors + offspring)[|survivors| + i], survivors, draws(i))
    {
      assert (survivors + offspring)[|survivors| + i] == offspring[i];
    }
  }

  /**
   * Selection and refill. The population is sorted in place; the top
   * int(n * pressure) survive as the prefix of the next population, and
   * offspring are appended until it has population_size members (or as
   * many as survived, if that is more). The step fails when the refill
   * loop does.
   */
  method GenerationStep(population: array<Genome>, populationSize: nat, pressure: real, gen: nat,
                        elements: seq<string>, mutationRate: real, innovationRate: real,
                        registry: OrganTypeRegistry, draws: nat -> OffspringDraws)
    returns (next: Result<seq<Genome>>)
    requires 0.0 <= pressure <= 1.0 && registry.Valid() && NoDuplicates(elements)
    modifies population, registry
    ensures registry.Valid() && TypesExtend(old(registry.types), registry.types)
    ensures DescendingByFitness(population[..]) && multiset(population[..]) == multiset(old(population[..]))
    ensures var k := NumSurvivors(population.Length, pressure);
            && (next.Err? <==> populationSize > k
                               && (k == 0 || exists i :: 0 <= i < populationSize - k
                                                         && CrossoverRaises(population[..k], draws(i))))
            && (forall i, j :: 0 <= i < k <= j < population.Length ==>
                  population[i].survivalFitness >= population[j].survivalFitness)
            && (next.Ok? ==>
                  && |next.value| == (if k > populationSize then k else populationSize)
                  && next.value[..k] == population[..k]
                  && (forall i :: k <= i < |next.value| ==> Offspring(next.value[i], population[..k], gen))
                  && forall i :: 0 <= i < |next.value| - k ==>
                       k > 0 && FromFirstParent(next.value[k + i], population[..k], draws(i)))
  {
    SortByFitnessDescending(population);
    var k := NumSurvivors(population.Length, pressure);
    var survivors := population[..k];
    forall i, j | 0 <= i < k <= j < population.Length
      ensures population[i].survivalFitness >= population[j].survivalFitness
    {
      DescendingPairwise(population[..], i, j);
    }
    var offspring :- Reproduce(survivors, populationSize - k, gen, elements, mutationRate, innovationRate,
                               registry, draws);
    RefillKeepsOffspring(survivors, offspring, gen);
    RefillKeepsFirstParents(survivors, offspring, draws);
    next := Ok(survivors + offspring);
  }
}
