# Genesis evolution core in Dafny

This project models the genetic core of a Streamlit program (`app.py`) that evolves artificial lifeforms. It covers:

- the genome records and `Genome.copy`;
- the round trip through `genome_to_dict` and `dict_to_genome`;
- the protocell that seeds a population;
- `crossover`, which blends organs and does a NEAT-style pathway merge;
- `mutate`, which does organ invention, point mutation and structural growth;
- the selection-and-refill block of the evolution loop.

Every genome record of the program is a Dafny datatype: `OrganGene`, `PathwayGene`, `EmbryogenesisGene` and `Genome`. Python deep-copies genes whenever it builds a child (`copy`, `asdict`), so value semantics is faithful. The states that do change in place are modelled imperatively:

- the population list that the evolution loop sorts is an `array<Genome>`;
- the session's list of known organ types is the class `Mutation.OrganTypeRegistry`;
- the per-organ and per-pathway loops of `crossover` and `mutate` are `while` loops that update one element at a time.

Randomness is a parameter. Every `random.random()` draw and every distribution sample reaches the model as a draw record (`CrossoverDraws`, `MutationDraws`, `OffspringDraws`):

- `random.choice(s)` is the element at a drawn index modulo `|s|`;
- `random.sample(.., 2)` is `Mutation.PickTwo`, and `Mutation.PickTwoCovers` proves it can produce every ordered pair of distinct positions;
- the iteration order of a Python set is an unspecified choice (`:|`) inside the merge loops, so their contracts hold for every order.

Modules, in dependency order:

- `Outcomes`: `Option` and `Result`.
- `Text`: decimal rendering and the `L-%07d` lineage tag.
- `Collections`: last-wins indexing as in a dict comprehension, sums and normalisation.
- `Genomes`: the records, `copy`, `__post_init__`, the protocell and the structural organ ids.
- `Serialization`: dictionaries as a `Value` tree, and the encode/decode round trip.
- `Recombination`: crossover, both as written and corrected.
- `Mutation`: mutate.
- `Evolution`: sorting, truncation selection and refill. The refill loop calls crossover as written, so the crossover defect listed under Findings can make a generation step fail. Every crossover that does not fail yields the corrected crossover's child.

## Model

| member | source | states |
|---|---|---|
| Text.LineageTag | app.py:119-121 | a generated lineage id is nine characters: `L-` followed by seven decimal digits, zero-padded (`%07d` of a number up to 9999999) |
| Collections.IndexBy | app.py:352 | a dict comprehension keyed by `key`: its keys are exactly the keys of the list, every value is a list element stored under its own key, and a later element with the same key wins |
| Collections.NormalizedSumsToOne | app.py:308-311 | dividing positive-sum values by their sum gives values that sum to one |
| Genomes.PostInit | app.py:119-121 | `__post_init__` gives an empty lineage id a fresh `L-` tag and leaves a non-empty one, and every other field, untouched |
| Genomes.NewGenome | app.py:97-121 | a genome built from genes and parents has those genes and parents, a fresh lineage tag and all life-history and phenotype fields at their defaults |
| Genomes.Copy | app.py:123-131 | the offspring's organ, pathway and rule lists equal the parent's element for element; its `parent_ids` is `[parent.lineage_id]`; it has a fresh lineage id and default generation, age and fitness; its pathways still connect its organs |
| Genomes.Protocell | app.py:240-255 | the protocell has two organs and one pathway that connects them, no parents and a default life history |
| Genomes.ProtocellShape | app.py:240-255 | the protocell's two organ types are distinct, its organ ids are not structural `O-j` ids, and its only pathway key is `(Core, Mem)` |
| Genomes.NewOrganId | app.py:304 | a new organ's id is `O-` followed by a non-empty rest (the decimal organ count) |
| Genomes.NewOrganIdInjective | app.py:304 | `O-{n}` ids for different organ counts are different |
| Genomes.NewOrganIdFresh | app.py:304 | when every structural id `O-j` sits at index j, the id `O-{len(organs)}` is not yet used |
| Serialization.OrganToDict | app.py:135 | `asdict` of an organ is a dict with one entry per `OrganGene` field |
| Serialization.PathwayToDict | app.py:135 | `asdict` of a pathway is a dict with one entry per `PathwayGene` field |
| Serialization.RuleToDict | app.py:135 | `asdict` of a rule is a dict with one entry per `EmbryogenesisGene` field |
| Serialization.GenomeToDictKeys | app.py:133-135 | `genome_to_dict` (`Serialization.GenomeToDict`) has exactly one entry per genome field |
| Serialization.DictToGenome | app.py:137-142 | `dict_to_genome` rewrites only the `organs`, `pathways` and `developmental_rules` entries of its argument, replacing them with gene objects; on success those entries are the rebuilt genome's genes; every other entry is untouched; the genome has a lineage id |
| Serialization.DecodePathways | app.py:140 | the pathway stage rewrites only the pathway and rule entries, and keeps the decoded organs |
| Serialization.DecodeRules | app.py:141-142 | the rule stage rewrites only the rule entry, then builds the genome from the keyword arguments |
| Serialization.OrganFromValue | app.py:139 | `OrganGene(**o)` succeeds only on a dict with every required keyword and no unknown one, and the built organ's id, type, size and efficiency are the dict's entries; a non-dict is rejected |
| Serialization.PathwayFromValue | app.py:140 | `PathwayGene(**p)` succeeds iff `p` is a dict with exactly the four fields, of the right kinds, and the built pathway holds those entries |
| Serialization.RuleFromValue | app.py:141 | `EmbryogenesisGene(**dr)` succeeds only on a dict with exactly the three fields, and the built rule's type and trigger are its entries; a non-dict is rejected |
| Serialization.OrgansFromItems | app.py:139 | a decoded organ list has one organ per item |
| Serialization.OrgansFromItemsElementwise | app.py:139 | the organ list decodes iff every item does, and then item i decodes to organ i |
| Serialization.PathwaysFromItems | app.py:140 | a decoded pathway list has one pathway per item |
| Serialization.PathwaysFromItemsElementwise | app.py:140 | the pathway list decodes iff every item does, and then item i decodes to pathway i |
| Serialization.RulesFromItems | app.py:141 | a decoded rule list has one rule per item |
| Serialization.RulesFromItemsElementwise | app.py:141 | the rule list decodes iff every item does, and then item i decodes to rule i |
| Serialization.OrganRoundTrip | app.py:139 | `OrganGene(**o)` of an encoded organ gives that organ back |
| Serialization.RuleRoundTrip | app.py:141 | `EmbryogenesisGene(**dr)` of an encoded rule gives that rule back |
| Serialization.OrgansRoundTrip | app.py:133-139 | decoding the encoded organ list gives the organ list back |
| Serialization.PathwaysRoundTrip | app.py:133-140 | decoding the encoded pathway list gives the pathway list back |
| Serialization.RulesRoundTrip | app.py:133-141 | decoding the encoded rule list gives the rule list back |
| Serialization.GenomeFromKeywords | app.py:142 | on success `Genome(**d)` holds exactly the given organs, pathways and rules, and has a lineage id |
| Serialization.KeywordsRoundTrip | app.py:142 | `Genome(**d)` on the encoded dict with its genes rewritten gives the genome back, after `__post_init__` |
| Serialization.DictRoundTrip | app.py:133-142 | `dict_to_genome(genome_to_dict(g))` rebuilds `g` field for field; only an empty lineage id is replaced by a fresh one |
| Serialization.DictRoundTripIdentity | app.py:133-142 | for a genome with a lineage id, the round trip is the identity |
| Serialization.DecodingTwiceFails | app.py:137-142 | because the argument is rewritten in place, decoding the same dict a second time fails once the genome has an organ |
| Serialization.OrganObjectsRejected | app.py:139 | an organ entry that already holds `OrganGene` objects is rejected, since `**o` needs a mapping |
| Recombination.BlendOrgan | app.py:352-357 | a child organ changes only when parent2 has its id and the draw is below 0.5; only size and efficiency change, each to the mean of the two parents' values, which lies between them |
| Recombination.BlendOrgans | app.py:353-357 | the organ loop leaves each child organ blended as `BlendOrgan` says, and keeps ids and order |
| Recombination.MergePathways | app.py:379-392 | for every visiting order of the key union: no key appears twice in the child; every child key comes from a parent; shared keys are always kept, with parent1's gene when the draw is above 0.5; a parent1-only key is kept iff parent1 is at least as fit; a parent2-only key is kept iff parent2 is strictly fitter |
| Recombination.MergeStep | app.py:381-392 | visiting one key of the union appends that key's chosen gene exactly when the key is inherited, which keeps the merge loop's invariant |
| Recombination.DisjointGenesFromOneParent | app.py:389-392 | disjoint genes never come from both parents in one child |
| Recombination.Crossover | app.py:347-394 | the corrected crossover: a copy of parent1 with blended organs (same ids, same order), merged pathways, parent1's rules and `parent_ids == [parent1.lineage_id]`; the structural-id invariant of parent1's organs carries over |
| Recombination.CrossoverChildIds | app.py:349-357 | blending keeps each organ's id at its index, so the child keeps parent1's structural-id invariant |
| Recombination.ChildOrganIds | app.py:349-357 | the child has exactly parent1's organ ids |
| Recombination.CrossoverKeepsWiring | app.py:379-392 | when both parents are well formed and parent2 has no organ parent1 lacks, every child pathway connects two child organs |
| Recombination.CrossoverCanDangle | app.py:391-392 | a pathway held only by a strictly fitter parent2 is inherited even when it names an organ the child does not have |
| Recombination.FirstMergeLoop | app.py:360-376 | the defective first loop raises iff some parent1 key is absent from parent2, or is shared and draws above 0.5 |
| Recombination.CrossoverAsWritten | app.py:347-394 | crossover as written fails with UnboundLocalError exactly when the first loop raises, and otherwise returns the corrected crossover's child |
| Recombination.DisjointParent1KeyRaises | app.py:373-374 | a parent1 that has a pathway parent2 lacks always makes the written crossover raise |
| Recombination.ProtocellCrossoverRaises | app.py:360-376 | crossing two protocells raises iff the draw for the shared key `(Core, Mem)` is above 0.5 |
| Recombination.SharedSingleKey | app.py:366-374 | when both parents have the same single pathway key, the defective loop raises iff that key's draw is above 0.5 |
| Recombination.NoPathwaysNoRaise | app.py:360-376 | only a parent1 with pathways can trip the defective loop |
| Mutation.Choice | app.py:305 | `random.choice(s)` on a non-empty list gives an element of it |
| Mutation.ChoiceCovers | app.py:305 | every element of the list can be chosen |
| Mutation.PickTwo | app.py:335 | `random.sample(range(n), 2)` gives two distinct positions below n |
| Mutation.PickTwoCovers | app.py:335 | every ordered pair of distinct positions is some draw of `PickTwo` |
| Mutation.Clip | app.py:287-295 | `np.clip`: the result lies in the bounds, is the input when that is in range, and the nearer bound otherwise |
| Mutation.MutateSize | app.py:285-286 | the size step changes no field but the size; the size is multiplied by the lognormal factor exactly when the roll is below the rate, and kept otherwise |
| Mutation.MutateSizeKeepsSign | app.py:285-286 | scaling the size by a positive lognormal factor keeps its sign |
| Mutation.MutateEfficiency | app.py:287-289 | on a roll below the rate, the efficiency becomes the old efficiency plus the normal noise, clipped to [0.01, 1.0]; without the roll the organ is unchanged |
| Mutation.MutateMaterial | app.py:291-295 | the material step changes no field but the material map |
| Mutation.MutateMaterialBounds | app.py:291-295 | the material step keeps every old element, adds at most one element, and only one of the universe; on a successful roll with elements available, the drawn element's fraction becomes its old value (0.0 if absent) plus the change, clipped to [0, 1], and every other entry keeps its value; without the roll, or with no elements, the organ is unchanged |
| Mutation.MutateOrgan | app.py:284-295 | the three steps in turn change only size, efficiency and materials; the organ's id, type, colour and position never change |
| Mutation.UpdateOrganFields | app.py:285-295 | the three in-place field updates of one organ give exactly the organ `MutateOrgan` describes |
| Mutation.MutatePathway | app.py:297-299 | only the flow capacity of a pathway changes; it is scaled when its roll succeeds, and a positive factor keeps its sign |
| Mutation.PointMutateOrgans | app.py:284-295 | the organ loop mutates every organ in place as `MutateOrgan` says |
| Mutation.PointMutatePathways | app.py:297-299 | the pathway loop mutates every pathway in place as `MutatePathway` says |
| Mutation.InitialOrganTypes | app.py:276-277 | the registry's seed lists the protocell's two distinct organ types |
| Mutation.Register | app.py:279-280 | registering a type leaves it present, keeps the old list as a prefix, grows the list by at most one, adds nothing already present, and keeps the list free of duplicates |
| Mutation.InventedType | app.py:266-274 | an invented type is one of the 14 prefixes joined to one of the 12 functions |
| Mutation.RegisterExtends | app.py:276-280 | registering an invented type keeps the old list as a prefix, and seeds an absent list with the protocell's types first |
| Mutation.TypesExtendTransitive | app.py:276-280 | two such extensions in a row are one extension, so the property holds across a whole run of `mutate` calls |
| Mutation.RegisterIdempotent | app.py:279-280 | registering the same type twice is the same as registering it once |
| Mutation.OrganTypeRegistry.Absent | app.py:276 | a session without the `organ_types` key: the registry is valid and holds no list |
| Mutation.OrganTypeRegistry.Seeded | app.py:595 | the registry seeded from the first genome's organ types holds exactly that list; its requires (at least one organ, no repeated type) is not checked by Python, but the protocell the population starts from meets it |
| Mutation.OrganTypeRegistry.RegisterInvented | app.py:276-280 | seeds the registry with the protocell types if it is absent, then registers the invented type; the registry stays non-empty and duplicate-free |
| Mutation.NewOrganMaterial | app.py:308-311 | the new organ's material names only available elements, and at least one when any exist |
| Mutation.SampleElements | app.py:308 | `random.sample(elements, min(2, n))` gives that many distinct available elements |
| Mutation.NewMaterial | app.py:308-311 | the new organ's material map has one entry per sampled element; each value is divided by the total when the total is positive and kept otherwise |
| Mutation.NewMaterialSumsToOne | app.py:308-311 | normalised material fractions sum to one |
| Mutation.StructuralOrganKeepsIdsAtIndex | app.py:304 | appending an organ whose id is `O-{len(organs)}` keeps every structural id at its index |
| Mutation.PathwayFromNewOrganIsDistinct | app.py:325-332 | a pathway from an organ not yet in the list cannot repeat the key of a connected pathway |
| Mutation.AddOrgan | app.py:303-332 | appends one organ with id `O-{old count}` and a registered type; when an organ existed, it also appends one pathway from the new organ to an existing organ; pathway wiring, the structural-id invariant and distinct pathway keys are kept |
| Mutation.AddPathway | app.py:335-343 | between two distinct organs, a pathway with their key is present afterwards; the list grows by one exactly when that key was absent; distinct keys and the wiring are kept |
| Mutation.PointMutationKeepsWiring | app.py:284-299 | point mutation keeps every organ id and pathway endpoint, so wiring, the structural-id invariant and distinct keys carry over |
| Mutation.GrowOrgan | app.py:303-332 | an organ is appended iff its roll succeeds and the registry exists, and otherwise nothing changes; the new organ has id `O-{n}`, a registered type, and the size, efficiency, material, colour and position of the draws; in a non-empty body exactly one pathway is appended, from the new organ to an existing organ, and in an empty body none; existing genes stay in place; wiring, the structural-id invariant and distinct keys are kept |
| Mutation.GrowPathway | app.py:335-343 | without the roll, or with fewer than two organs, nothing changes; otherwise the `(source, target)` key of the two drawn organs is present afterwards, and one pathway is appended exactly when that key was absent; existing pathways stay in place; wiring and distinct keys are kept |
| Mutation.Grow | app.py:303-343 | structural growth adds at most one organ, and only when its roll succeeds and the registry exists; the result satisfies `Grown`: the drawn organ and, in a non-empty body, its connecting pathway, then the drawn pathway key present when the second roll succeeds on the grown body (appended only if absent); all existing genes stay in place |
| Mutation.MutateGenes | app.py:284-343 | every old organ and pathway is point-mutated in place, then growth follows as `Grown` states it about the original genes, with the invariants kept |
| Mutation.Mutate | app.py:258-345 | the mutant is a copy naming the input as parent, with its rules unchanged; its old genes are point-mutated and its growth is as `Grown` states, so a new organ is the one built from the draws and is connected when the body was non-empty, and a successful add-pathway roll leaves the drawn key present; the registry changes only by registering an invented type, so the known types only extend; a well-formed genome stays well formed; the structural-id invariant and distinct pathway keys are kept |
| Evolution.DescendingPairwise | app.py:629 | in a population sorted by descending fitness, every earlier member is at least as fit as every later one |
| Evolution.Insert | app.py:629 | one insertion step extends the fitness-ordered prefix by one element and permutes the population |
| Evolution.SortByFitnessDescending | app.py:629 | sorting in place leaves the population ordered by descending fitness and a permutation of what it was |
| Evolution.NumSurvivors | app.py:630 | `int(n * pressure)` is the floor of the product and never exceeds n |
| Evolution.ProtocellSurvivorsRaise | app.py:636-638 | when every survivor has only the protocell's pathway key, as in the first generation, an offspring's crossover raises exactly when its draw for `(Core, Mem)` is above 0.5 |
| Evolution.RefillKeepsOffspring | app.py:643 | appending the offspring after the survivors keeps the survivors as the prefix, and every member after them is an offspring of the survivors |
| Evolution.RefillKeepsFirstParents | app.py:643 | offspring i of the refill sits at index `|survivors| + i` of the next population and still descends from the first parent draw i picks |
| Evolution.Breed | app.py:636-641 | one pass of the loop fails exactly when the picked parents' crossover raises; otherwise the child is generation `gen + 1` with zero fitness, has the rules and organ ids (same positions, plus at most one organ) of the survivor that `Choice(survivors, d.parent1)` picks (`FromFirstParent`), keeps the survivors' structural-id invariant, and the known organ types only extend |
| Evolution.Reproduce | app.py:634-641 | the refill loop fails iff offspring are needed and either there is no survivor (`random.choice([])`) or some offspring's crossover raises; otherwise it produces exactly the missing number of offspring, offspring i descends from the first parent that draw i picks, as `Breed` describes; the known organ types only extend |
| Evolution.GenerationStep | app.py:629-643 | the population is sorted in place and every survivor is at least as fit as every discarded member; the step fails iff offspring are needed and either no genome survives or some offspring's crossover raises UnboundLocalError; otherwise the next population has `max(survivors, population_size)` members, the survivors come first, offspring i of the refill descends from the first parent its draw picks among the survivors, and the known organ types only extend |

## Left out

- `survival_simulation` (app.py:171-234) is not part of this model. It is floating-point numerics (sigmoid, small divisors). Fitness is an input field of each genome.
- The distributions (`np.random.lognormal`, `normal`, `uniform`, `random.randint`) and the Plotly colour pick are oracle inputs. Their ranges (for example a new organ's size in [0.1, 2.0]) are properties of the draws, not of the operations.
- Floating point is modelled as exact reals, so `Mutation.NewMaterialSumsToOne` is exact where Python is only approximately one.
- Streamlit: the session state, `st.toast`, the sliders, the progress bar, history recording and the visualisations are left out. The `organ_types` entry of the session state is modelled as `Mutation.OrganTypeRegistry`.
- The population re-initialisation when the session loses its population (app.py:605-607) is UI state recovery and is not modelled.
- `Universe` (app.py:149-164) is reduced to the key list of `available_elements`, passed to `mutate` as `elements`; its physical and stellar fields are not modelled.
- Evolution.SortByFitnessDescending: Python's sort is stable. The model proves order and permutation but not stability.
- Evolution.NumSurvivors: requires the pressure to lie in [0, 1]. The slider gives [0.1, 0.9], and the code itself checks nothing; the model does not capture Python's slicing with a negative or oversized bound.
- Serialization: Python's dataclasses do not check field types. The model's decoders reject a field of the wrong kind (for example a string where a list is expected), where Python would build a genome holding it.
- Genomes.PostInit: fresh lineage ids come from a draw and may collide; the model does not prove uniqueness of lineage ids.
- Evolution.GenerationStep: the offspring's `parent_ids` names the intermediate crossover child, because `mutate` copies that child. The model reproduces this but states it only implicitly, through `Mutation.Mutate`.
- Evolution.GenerationStep: crossing over a fitter parent2 can leave the child with a pathway to an organ it lacks (`Recombination.CrossoverCanDangle`). So the model proves the wiring invariant for `mutate` and for crossover under a subset condition, not for whole generations.

## Findings

| source | as written | input that shows it | evidently intended | confidence | as-written member | corrected member |
|---|---|---|---|---|---|---|
| app.py:360-376 | the first pathway-merge loop reads `p1_paths_map` before line 379 assigns it, so `crossover` raises UnboundLocalError whenever parent1 has a pathway parent2 lacks, or a shared pathway draws above 0.5 | two protocells whose draw for the shared key `(Core, Mem)` is above 0.5 (`Recombination.ProtocellCrossoverRaises`) | only the merge of lines 379-392, as its own comment says | not executed | Recombination.CrossoverAsWritten | Recombination.Crossover |
