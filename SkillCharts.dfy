// The skills section: skills grouped by category, and the label and level
// series handed to the radar chart and to the per-category doughnut charts.
module SkillCharts {
  import opened Wrappers

  datatype SkillCategory = Frontend | Backend | Tools

  function CategoryName(c: SkillCategory): string
  {
    match c
    case Frontend => "Frontend"
    case Backend => "Backend"
    case Tools => "Tools"
  }

  /** The category a record key names, if any: the inverse of `CategoryName`. */
  function CategoryNamed(key: string): (c: Option<SkillCategory>)
    ensures c.Some? ==> CategoryName(c.value) == key
    ensures c.None? ==> forall cat :: CategoryName(cat) != key
  {
    if key == "Frontend" then Some(Frontend)
    else if key == "Backend" then Some(Backend)
    else if key == "Tools" then Some(Tools)
    else None
  }

  datatype Skill = Skill(name: string, icon: string, level: int, category: SkillCategory)

  /** `skillsByCategory`. The record's keys are the category names of the
      skills; since `CategoryName` is injective, the map is keyed by the
      category itself and a lookup by string goes through `CategoryNamed`. */
  type Groups = map<SkillCategory, seq<Skill>>

  // ---------------------------------------------------------------------
  // Grouping

  /** The skills of category `c`, in their original order. */
  function Bucket(skills: seq<Skill>, c: SkillCategory): seq<Skill>
  {
    if |skills| == 0 then []
    else (if skills[0].category == c then [skills[0]] else []) + Bucket(skills[1..], c)
  }

  /** `groups` is what the reduce builds from `skills`: a key for exactly
      the categories some skill has, holding that category's bucket. */
  ghost predicate GroupedFrom(groups: Groups, skills: seq<Skill>)
  {
    forall c :: (c in groups <==> Bucket(skills, c) != []) && GroupOf(groups, c) == Bucket(skills, c)
  }

  /** Pushing one more skill extends its own bucket only. */
  lemma {:induction false} BucketSnoc(skills: seq<Skill>, s: Skill, c: SkillCategory)
    ensures Bucket(skills + [s], c) == Bucket(skills, c) + (if s.category == c then [s] else [])
  {
    var last := if s.category == c then [s] else [];
    if |skills| == 0 {
      assert skills + [s] == [s];
      assert [s][1..] == [];
    } else {
      var tail := skills[1..];
      var head := if skills[0].category == c then [skills[0]] else [];
      assert (skills + [s])[1..] == tail + [s];
      BucketSnoc(tail, s, c);
      calc {
        Bucket(skills + [s], c);
        head + Bucket(tail + [s], c);
        head + (Bucket(tail, c) + last);
        { AppendAssoc(head, Bucket(tail, c), last); }
        head + Bucket(tail, c) + last;
      }
    }
  }

  lemma AppendAssoc<T>(a: seq<T>, b: seq<T>, c: seq<T>)
    ensures a + (b + c) == a + b + c
  {
  }

  /** A bucket holds exactly the skills of that category, so every skill is
      in the bucket of its own category and in no other. */
  lemma {:induction false} BucketMembers(skills: seq<Skill>, c: SkillCategory)
    ensures forall s :: s in Bucket(skills, c) <==> s in skills && s.category == c
  {
    if |skills| > 0 {
      BucketMembers(skills[1..], c);
      assert skills == [skills[0]] + skills[1..];
    }
  }

  /** A bucket keeps its skills in their original relative order. */
  lemma {:induction false} BucketKeepsOrder(skills: seq<Skill>, c: SkillCategory)
    ensures IsSubsequence(Bucket(skills, c), skills)
  {
    if |skills| > 0 {
      BucketKeepsOrder(skills[1..], c);
      var rest := Bucket(skills[1..], c);
      if skills[0].category == c {
        assert ([skills[0]] + rest)[1..] == rest;
      } else {
        assert Bucket(skills, c) == rest;
        SubsequenceSkip(rest, skills);
      }
    }
  }

  lemma SubsequenceSkip<T>(xs: seq<T>, ys: seq<T>)
    requires |ys| > 0 && IsSubsequence(xs, ys[1..])
    ensures IsSubsequence(xs, ys)
  {
  }

  /** The `reduce` that builds `skillsByCategory`: starting from an empty
      record, each skill creates its category's bucket when that is missing
      and is then pushed onto it. */
  method GroupByCategory(skills: seq<Skill>) returns (acc: Groups)
    ensures GroupedFrom(acc, skills)
  {
    acc := map[];
    var i := 0;
    while i < |skills|
      invariant 0 <= i <= |skills|
      invariant GroupedFrom(acc, skills[..i])
    {
      var skill := skills[i];
      var key := skill.category;
      GroupStep(acc, skills, i);
      // Create the bucket if it is missing, then push onto it.
      var bucket := if key in acc then acc[key] else [];
      acc := acc[key := bucket + [skill]];
      i := i + 1;
    }
    assert skills[..i] == skills;
  }

  /** One step of the reduce: pushing `skill` onto its category's bucket
      (created empty if missing) groups the extended list. */
  lemma GroupStep(acc: Groups, skills: seq<Skill>, i: nat)
    requires i < |skills| && GroupedFrom(acc, skills[..i])
    ensures GroupedFrom(acc[skills[i].category := GroupOf(acc, skills[i].category) + [skills[i]]], skills[..i + 1])
  {
    assert skills[..i + 1] == skills[..i] + [skills[i]];
    forall c {
      BucketSnoc(skills[..i], skills[i], c);
    }
  }

  /** On a grouping of `skills`, every skill sits in the bucket of its own
      category, and a bucket holds only skills of its category. */
  lemma GroupedSkillsInOwnBucket(groups: Groups, skills: seq<Skill>)
    requires GroupedFrom(groups, skills)
    ensures forall s :: s in skills ==> s.category in groups && s in groups[s.category]
    ensures forall c, s :: c in groups && s in groups[c] ==> s in skills && s.category == c
  {
    forall c
      ensures forall s :: s in Bucket(skills, c) <==> s in skills && s.category == c
    {
      BucketMembers(skills, c);
    }
    forall s | s in skills
      ensures s.category in groups
    {
      assert s in Bucket(skills, s.category);
    }
  }

  /** The Frontend, Backend and Tools buckets, one after the other. */
  function AllBuckets(skills: seq<Skill>): seq<Skill>
  {
    Bucket(skills, Frontend) + Bucket(skills, Backend) + Bucket(skills, Tools)
  }

  /** The three buckets together hold every skill exactly once. */
  lemma {:induction false} BucketsPartition(skills: seq<Skill>)
    ensures multiset(AllBuckets(skills)) == multiset(skills)
  {
    if |skills| > 0 {
      BucketsPartition(skills[1..]);
      PartitionStep(skills);
      MultisetOfCons(skills);
    }
  }

  lemma MultisetOfCons<T>(xs: seq<T>)
    requires |xs| > 0
    ensures multiset(xs) == multiset{xs[0]} + multiset(xs[1..])
  {
    assert xs == [xs[0]] + xs[1..];
  }

  /** The first skill goes to exactly one of the three buckets. */
  lemma PartitionStep(skills: seq<Skill>)
    requires |skills| > 0
    ensures multiset(AllBuckets(skills)) == multiset{skills[0]} + multiset(AllBuckets(skills[1..]))
  {
    BucketHead(skills, Frontend);
    BucketHead(skills, Backend);
    BucketHead(skills, Tools);
  }

  /** The bucket of `c` gains the first skill exactly when that skill has
      category `c`. */
  lemma BucketHead(skills: seq<Skill>, c: SkillCategory)
    requires |skills| > 0
    ensures multiset(Bucket(skills, c)) ==
              (if skills[0].category == c then multiset{skills[0]} else multiset{}) +
              multiset(Bucket(skills[1..], c))
  {
  }

  /** The bucket sizes add up to the number of skills. */
  lemma BucketSizes(skills: seq<Skill>)
    ensures |Bucket(skills, Frontend)| + |Bucket(skills, Backend)| + |Bucket(skills, Tools)| == |skills|
  {
    BucketsPartition(skills);
    assert |multiset(AllBuckets(skills))| == |AllBuckets(skills)|;
  }

  // ---------------------------------------------------------------------
  // Chart series

  /** The bucket of `c`, or nothing when no skill has that category. */
  function GroupOf(groups: Groups, c: SkillCategory): seq<Skill>
  {
    if c in groups then groups[c] else []
  }

  /** The bucket under `key`, or the empty list when the record has none:
      what `skillsByCategory[key]?.map(...) || []` maps over. */
  function Lookup(groups: Groups, key: string): (bucket: seq<Skill>)
    ensures CategoryNamed(key).None? ==> bucket == []
    ensures forall c :: CategoryName(c) == key ==> bucket == GroupOf(groups, c)
  {
    match CategoryNamed(key)
    case None => []
    case Some(c) => GroupOf(groups, c)
  }

  function Names(skills: seq<Skill>): (names: seq<string>)
    ensures |names| == |skills|
    ensures forall i :: 0 <= i < |skills| ==> names[i] == skills[i].name
  {
    seq(|skills|, i requires 0 <= i < |skills| => skills[i].name)
  }

  function Levels(skills: seq<Skill>): (levels: seq<int>)
    ensures |levels| == |skills|
    ensures forall i :: 0 <= i < |skills| ==> levels[i] == skills[i].level
  {
    seq(|skills|, i requires 0 <= i < |skills| => skills[i].level)
  }

  /** Parallel label and value lists handed to a chart. */
  datatype Series = Series(labels: seq<string>, data: seq<int>)

  /** The order of the radar chart's spokes: the names 'Frontend', 'Backend'
      and 'Tools'. */
  const RadarOrder: seq<SkillCategory> := [Frontend, Backend, Tools]

  /** The skills behind the radar spokes: Frontend, then Backend, then Tools. */
  function RadarSkills(groups: Groups): seq<Skill>
  {
    GroupOf(groups, RadarOrder[0]) + GroupOf(groups, RadarOrder[1]) + GroupOf(groups, RadarOrder[2])
  }

  /** `radarData`: the names and the levels of the three buckets, each
      concatenated in spoke order; a missing bucket contributes nothing.
      Label `i` and value `i` belong to the same skill. */
  function RadarSeries(groups: Groups): (r: Series)
    ensures |r.labels| == |r.data| == |RadarSkills(groups)|
    ensures forall i :: 0 <= i < |r.labels| ==>
              r.labels[i] == RadarSkills(groups)[i].name && r.data[i] == RadarSkills(groups)[i].level
  {
    var f, b, t := GroupOf(groups, RadarOrder[0]), GroupOf(groups, RadarOrder[1]), GroupOf(groups, RadarOrder[2]);
    var r := Series(Names(f) + Names(b) + Names(t), Levels(f) + Levels(b) + Levels(t));
    assert RadarSkills(groups) == f + b + t;
    r
  }

  /** On a grouping of `skills`, the radar covers every skill exactly once. */
  lemma RadarCoversEverySkill(groups: Groups, skills: seq<Skill>)
    requires GroupedFrom(groups, skills)
    ensures multiset(RadarSkills(groups)) == multiset(skills)
    ensures |RadarSeries(groups).labels| == |skills|
  {
    assert RadarSkills(groups) == AllBuckets(skills);
    BucketsPartition(skills);
    assert |multiset(RadarSkills(groups))| == |RadarSkills(groups)|;
  }

  /** `prepareDonutData(category)`: the names and levels of one bucket, in
      step, or two empty lists for a key with no bucket. */
  function DonutSeries(groups: Groups, category: string): (r: Series)
    ensures |r.labels| == |r.data| == |Lookup(groups, category)|
    ensures forall i :: 0 <= i < |r.labels| ==>
              r.labels[i] == Lookup(groups, category)[i].name && r.data[i] == Lookup(groups, category)[i].level
    ensures CategoryNamed(category).None? ==> r == Series([], [])
  {
    Series(Names(Lookup(groups, category)), Levels(Lookup(groups, category)))
  }

  /** On a grouping of `skills`, the doughnut of a category shows exactly
      that category's skills, in order. */
  lemma DonutOfGrouping(groups: Groups, skills: seq<Skill>, c: SkillCategory)
    requires GroupedFrom(groups, skills)
    ensures DonutSeries(groups, CategoryName(c)) == Series(Names(Bucket(skills, c)), Levels(Bucket(skills, c)))
  {
  }
}
