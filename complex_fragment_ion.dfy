/**
 * A fragment ion of a crosslinked peptide (ComplexFragmentIon): a transition
 * of one peptide, its neutral losses, and the fragment ions of the linked
 * peptides hanging off it, each at the modification site that links it.
 * The class is immutable, so the model works on values: AddChild returns a
 * new ion and leaves the receiver as it was.
 */
module Crosslinking {
  import opened Wrappers
  import opened Chemistry

  // ---------------------------------------------------------------------------
  // Data model

  /** IonType: the precursor, the N-terminal a/b/c and C-terminal x/y/z series, and custom ions. */
  datatype IonType = Precursor | Custom | A | B | C | X | Y | Z

  /** The peptide a transition belongs to: its amino-acid sequence and precursor adduct. */
  datatype TransitionGroup = TransitionGroup(peptideSequence: string, precursorAdduct: Adduct)

  /** A transition as constructed: group, ion type, cleavage offset, mass index and adduct. */
  datatype Transition = Transition(group: TransitionGroup, ionType: IonType, cleavageOffset: int, massIndex: int, adduct: Adduct)

  /** A neutral loss, known by its text. */
  datatype Loss = Loss(text: string)

  /** Where a linked peptide is attached: the residue index and the name of the crosslinker modification. */
  datatype ModificationSite = ModificationSite(indexAa: int, modName: string)

  /** One entry of Children: a site and the fragment ion of the peptide linked there. */
  datatype Child = Child(site: ModificationSite, ion: ComplexFragmentIon)

  /**
   * The fragment ion. `losses` is None for a null TransitionLosses;
   * `children` is kept sorted by site by the operations below.
   */
  datatype ComplexFragmentIon = ComplexFragmentIon(
    transition: Transition,
    losses: Option<seq<Loss>>,
    children: seq<Child>,
    isOrphan: bool)

  /** The peptide linked by a crosslinker, with its own (possibly null) modifications. */
  datatype LinkedPeptide = LinkedPeptide(explicitMods: Option<ExplicitMods>)

  /** A static modification: its site, and the linked peptide when it is a crosslinker. */
  datatype ExplicitMod = ExplicitMod(modificationSite: ModificationSite, linkedPeptide: Option<LinkedPeptide>)

  datatype ExplicitMods = ExplicitMods(staticModifications: seq<ExplicitMod>)

  /** The exceptions of this class. */
  datatype IonError = InvalidOperation | ArgumentException | NullReference

  /**
   * The formula of a single peptide fragment: built by ModifiedSequence and
   * FragmentedMolecule, which are not part of this model.
   */
  type FragmentFormulaOf = (Transition, Option<seq<Loss>>, Option<ExplicitMods>) -> Formula

  // ---------------------------------------------------------------------------
  // Construction

  /** The constructor: no children; `isOrphan` defaults to false. */
  function NewComplexFragmentIon(transition: Transition, losses: Option<seq<Loss>>, isOrphan: bool := false): (ion: ComplexFragmentIon)
    ensures ion.children == [] && ion.transition == transition && ion.losses == losses && ion.isOrphan == isOrphan
  {
    ComplexFragmentIon(transition, losses, [], isOrphan)
  }

  /**
   * NewOrphanFragmentIon: an orphan whose transition is the precursor ion of
   * the group, cut after the last residue, with mass index 0, the group's
   * adduct and null losses. The modifications argument is not used.
   */
  function NewOrphanFragmentIon(group: TransitionGroup, explicitMods: Option<ExplicitMods>): (ion: ComplexFragmentIon)
    ensures ion.isOrphan && ion.children == [] && ion.losses.None?
    ensures ion.transition.ionType == Precursor
    ensures ion.transition.cleavageOffset == |group.peptideSequence| - 1
    ensures ion.transition.massIndex == 0 && ion.transition.adduct == group.precursorAdduct
    ensures ion.transition.group == group
  {
    var transition := Transition(group, Precursor, |group.peptideSequence| - 1, 0, group.precursorAdduct);
    NewComplexFragmentIon(transition, None, true)
  }

  predicate IsPrecursor(t: Transition)
  {
    t.ionType == Precursor
  }

  predicate IsEmptyOrphan(ion: ComplexFragmentIon)
  {
    ion.isOrphan && |ion.children| == 0
  }

  /** A new orphan is an empty orphan; an ion built by the constructor has no children. */
  lemma NewIonsAreEmpty(group: TransitionGroup, mods: Option<ExplicitMods>, transition: Transition, losses: Option<seq<Loss>>, isOrphan: bool)
    ensures IsEmptyOrphan(NewOrphanFragmentIon(group, mods))
    ensures IsEmptyOrphan(NewComplexFragmentIon(transition, losses, isOrphan)) <==> isOrphan
  {
  }

  // ---------------------------------------------------------------------------
  // The order of modification sites

  /** Ordinal string order: character codes compared left to right, a prefix first. */
  predicate OrdinalLe(a: string, b: string)
  {
    if a == [] then true
    else if b == [] then false
    else if a[0] != b[0] then a[0] < b[0]
    else OrdinalLe(a[1..], b[1..])
  }

  /** Sites in order of residue index, then of modification name. */
  predicate SiteLe(s: ModificationSite, t: ModificationSite)
  {
    s.indexAa < t.indexAa || (s.indexAa == t.indexAa && OrdinalLe(s.modName, t.modName))
  }

  lemma {:induction false} OrdinalLeTotal(a: string, b: string)
    ensures OrdinalLe(a, b) || OrdinalLe(b, a)
  {
    if a != [] && b != [] && a[0] == b[0] {
      OrdinalLeTotal(a[1..], b[1..]);
    }
  }

  lemma {:induction false} OrdinalLeTransitive(a: string, b: string, c: string)
    requires OrdinalLe(a, b) && OrdinalLe(b, c)
    ensures OrdinalLe(a, c)
  {
    if a != [] && b != [] && c != [] && a[0] == b[0] && b[0] == c[0] {
      OrdinalLeTransitive(a[1..], b[1..], c[1..]);
    }
  }

  lemma {:induction false} OrdinalLeAntisymmetric(a: string, b: string)
    requires OrdinalLe(a, b) && OrdinalLe(b, a)
    ensures a == b
  {
    if a != [] && b != [] {
      OrdinalLeAntisymmetric(a[1..], b[1..]);
      assert a == [a[0]] + a[1..] && b == [b[0]] + b[1..];
    }
  }

  /** SiteLe is a total order. */
  lemma SiteOrder(s: ModificationSite, t: ModificationSite, u: ModificationSite)
    ensures SiteLe(s, t) || SiteLe(t, s)
    ensures SiteLe(s, t) && SiteLe(t, u) ==> SiteLe(s, u)
    ensures SiteLe(s, t) && SiteLe(t, s) ==> s == t
  {
    OrdinalLeTotal(s.modName, t.modName);
    if SiteLe(s, t) && SiteLe(t, u) && s.indexAa == t.indexAa == u.indexAa {
      OrdinalLeTransitive(s.modName, t.modName, u.modName);
    }
    if SiteLe(s, t) && SiteLe(t, s) {
      OrdinalLeAntisymmetric(s.modName, t.modName);
    }
  }

  predicate SortedBySite(cs: seq<Child>)
  {
    forall i, j :: 0 <= i < j < |cs| ==> SiteLe(cs[i].site, cs[j].site)
  }

  // ---------------------------------------------------------------------------
  // ImmutableSortedList.FromValues: children sorted by site

  /** c put into the sorted list after every entry whose site is not after its own. */
  function InsertBySite(c: Child, cs: seq<Child>): (r: seq<Child>)
    ensures multiset(r) == multiset(cs) + multiset{c}
    ensures |r| == |cs| + 1
  {
    if cs == [] then [c]
    else if SiteLe(cs[|cs| - 1].site, c.site) then cs + [c]
    else
      var init := cs[..|cs| - 1];
      assert cs == init + [cs[|cs| - 1]];
      InsertBySite(c, init) + [cs[|cs| - 1]]
  }

  /** The entries sorted by site, entries with equal sites keeping their order. */
  function SortBySite(cs: seq<Child>): (r: seq<Child>)
    ensures multiset(r) == multiset(cs)
    ensures |r| == |cs|
  {
    if cs == [] then []
    else
      var init := cs[..|cs| - 1];
      assert cs == init + [cs[|cs| - 1]];
      InsertBySite(cs[|cs| - 1], SortBySite(init))
  }

  /** Dropping the last entry of a sorted list leaves it sorted. */
  lemma SortedPrefix(cs: seq<Child>)
    requires SortedBySite(cs) && cs != []
    ensures SortedBySite(cs[..|cs| - 1])
  {
    var init := cs[..|cs| - 1];
    forall i, j | 0 <= i < j < |init|
      ensures SiteLe(init[i].site, init[j].site)
    {
      assert init[i] == cs[i] && init[j] == cs[j];
    }
  }

  /** No entry of a sorted list comes after its last one. */
  lemma SortedLast(cs: seq<Child>)
    requires SortedBySite(cs) && cs != []
    ensures forall k :: 0 <= k < |cs| ==> SiteLe(cs[k].site, cs[|cs| - 1].site)
  {
    forall k | 0 <= k < |cs|
      ensures SiteLe(cs[k].site, cs[|cs| - 1].site)
    {
      if k == |cs| - 1 {
        SiteOrder(cs[k].site, cs[k].site, cs[k].site);
      }
    }
  }

  /** Appending an entry that no entry comes after keeps a list sorted. */
  lemma SortedSnoc(r: seq<Child>, x: Child)
    requires SortedBySite(r)
    requires forall k :: 0 <= k < |r| ==> SiteLe(r[k].site, x.site)
    ensures SortedBySite(r + [x])
  {
    var t := r + [x];
    forall i, j | 0 <= i < j < |t|
      ensures SiteLe(t[i].site, t[j].site)
    {
      assert t[i] == r[i];
      if j < |r| {
        assert t[j] == r[j];
      }
    }
  }

  /** Inserting an entry keeps every entry at or before a bound they all respect. */
  lemma InsertBelow(c: Child, cs: seq<Child>, bound: ModificationSite)
    requires SiteLe(c.site, bound)
    requires forall k :: 0 <= k < |cs| ==> SiteLe(cs[k].site, bound)
    ensures forall k :: 0 <= k < |InsertBySite(c, cs)| ==> SiteLe(InsertBySite(c, cs)[k].site, bound)
  {
    var r := InsertBySite(c, cs);
    forall k | 0 <= k < |r|
      ensures SiteLe(r[k].site, bound)
    {
      assert r[k] in multiset(r);
      if r[k] != c {
        assert r[k] in multiset(cs);
        var m :| 0 <= m < |cs| && cs[m] == r[k];
      }
    }
  }

  lemma {:induction false} InsertKeepsSorted(c: Child, cs: seq<Child>)
    requires SortedBySite(cs)
    ensures SortedBySite(InsertBySite(c, cs))
  {
    if cs == [] {
      assert InsertBySite(c, cs) == [c];
    } else {
      var last := cs[|cs| - 1];
      var init := cs[..|cs| - 1];
      SortedLast(cs);
      if SiteLe(last.site, c.site) {
        forall k | 0 <= k < |cs|
          ensures SiteLe(cs[k].site, c.site)
        {
          SiteOrder(cs[k].site, last.site, c.site);
        }
        SortedSnoc(cs, c);
      } else {
        SortedPrefix(cs);
        InsertKeepsSorted(c, init);
        SiteOrder(c.site, last.site, last.site);
        forall k | 0 <= k < |init|
          ensures SiteLe(init[k].site, last.site)
        {
          assert init[k] == cs[k];
        }
        InsertBelow(c, init, last.site);
        SortedSnoc(InsertBySite(c, init), last);
      }
    }
  }

  /** FromValues gives a list sorted by site holding exactly the given entries. */
  lemma {:induction false} SortBySiteSorts(cs: seq<Child>)
    ensures SortedBySite(SortBySite(cs))
    ensures multiset(SortBySite(cs)) == multiset(cs)
  {
    if cs != [] {
      SortBySiteSorts(cs[..|cs| - 1]);
      InsertKeepsSorted(cs[|cs| - 1], SortBySite(cs[..|cs| - 1]));
    }
  }

  /** Sorting a list already sorted by site leaves it as it is. */
  lemma {:induction false} SortSortedIsIdentity(cs: seq<Child>)
    requires SortedBySite(cs)
    ensures SortBySite(cs) == cs
  {
    if cs != [] {
      var init := cs[..|cs| - 1];
      var last := cs[|cs| - 1];
      assert cs == init + [last];
      assert SortBySite(cs) == InsertBySite(last, SortBySite(init));
      SortedPrefix(cs);
      SortSortedIsIdentity(init);
      if init != [] {
        assert init[|init| - 1] == cs[|cs| - 2];
        assert SiteLe(init[|init| - 1].site, last.site);
      }
      assert InsertBySite(last, init) == init + [last];
    }
  }

  // ---------------------------------------------------------------------------
  // AddChild and the children at a site

  /**
   * ChangeChildren: a copy of the ion whose children are exactly the given
   * entries, sorted by site; nothing else of the ion changes.
   */
  function ChangeChildren(ion: ComplexFragmentIon, children: seq<Child>): (r: ComplexFragmentIon)
    ensures SortedBySite(r.children) && multiset(r.children) == multiset(children)
    ensures r.transition == ion.transition && r.losses == ion.losses && r.isOrphan == ion.isOrphan
  {
    SortBySiteSorts(children);
    ion.(children := SortBySite(children))
  }

  /**
   * AddChild: an orphan that already has a child refuses another
   * (InvalidOperationException); otherwise a copy whose children are the old
   * ones and the new entry, sorted by site.
   */
  function AddChild(ion: ComplexFragmentIon, site: ModificationSite, child: ComplexFragmentIon): (r: Result<ComplexFragmentIon, IonError>)
    ensures r.Err? <==> ion.isOrphan && ion.children != []
    ensures r.Err? ==> r.error == InvalidOperation
    ensures r.Ok? ==> r.value == ion.(children := SortBySite(ion.children + [Child(site, child)]))
  {
    if ion.isOrphan && !IsEmptyOrphan(ion) then Err(InvalidOperation)
    else Ok(ion.(children := SortBySite(ion.children + [Child(site, child)])))
  }

  /** The new children are sorted, hold the old ones plus the new entry, and keep everything else of the ion. */
  lemma AddChildSorts(ion: ComplexFragmentIon, site: ModificationSite, child: ComplexFragmentIon)
    requires AddChild(ion, site, child).Ok?
    ensures var r := AddChild(ion, site, child).value;
      && SortedBySite(r.children)
      && multiset(r.children) == multiset(ion.children) + multiset{Child(site, child)}
      && r.transition == ion.transition && r.losses == ion.losses && r.isOrphan == ion.isOrphan
  {
    SortBySiteSorts(ion.children + [Child(site, child)]);
  }

  /** When the children are already sorted, the new entry is inserted after every entry at a site not after its own. */
  lemma {:induction false} AddChildInserts(ion: ComplexFragmentIon, site: ModificationSite, child: ComplexFragmentIon)
    requires AddChild(ion, site, child).Ok? && SortedBySite(ion.children)
    ensures AddChild(ion, site, child).value.children == InsertBySite(Child(site, child), ion.children)
  {
    var cs := ion.children + [Child(site, child)];
    assert cs[..|cs| - 1] == ion.children;
    SortSortedIsIdentity(ion.children);
  }

  /** An orphan takes exactly one child: the first AddChild succeeds, any later one fails. */
  lemma OrphanTakesOneChild(group: TransitionGroup, mods: Option<ExplicitMods>, s1: ModificationSite, c1: ComplexFragmentIon, s2: ModificationSite, c2: ComplexFragmentIon)
    ensures var orphan := NewOrphanFragmentIon(group, mods);
      && AddChild(orphan, s1, c1).Ok?
      && |AddChild(orphan, s1, c1).value.children| == 1
      && AddChild(AddChild(orphan, s1, c1).value, s2, c2) == Err(InvalidOperation)
  {
  }

  /** GetChildrenAtSite: the ions of the entries at exactly that site, in list order. */
  function ChildrenAtSite(cs: seq<Child>, site: ModificationSite): (r: seq<ComplexFragmentIon>)
    ensures |r| <= |cs|
    ensures forall x :: x in r ==> Child(site, x) in cs
    ensures forall x :: Child(site, x) in cs ==> x in r
  {
    if cs == [] then []
    else
      var rest := ChildrenAtSite(cs[1..], site);
      assert forall x :: Child(site, x) in cs[1..] ==> Child(site, x) in cs;
      assert forall x :: Child(site, x) in cs && Child(site, x) != cs[0] ==> Child(site, x) in cs[1..];
      if cs[0].site == site then [cs[0].ion] + rest else rest
  }

  /**
   * ChildrenAtSite keeps list order: the ions at a site of two lists joined
   * are those of the first list followed by those of the second.
   */
  lemma {:induction false} ChildrenAtSiteOfJoin(a: seq<Child>, b: seq<Child>, site: ModificationSite)
    ensures ChildrenAtSite(a + b, site) == ChildrenAtSite(a, site) + ChildrenAtSite(b, site)
    decreases |a|
  {
    if a == [] {
      assert a + b == b;
    } else {
      var ab := a + b;
      JoinTail(a, b);
      ChildrenAtSiteOfJoin(a[1..], b, site);
      ChildrenAtSiteStep(ab, site);
      ChildrenAtSiteStep(a, site);
    }
  }

  lemma ChildrenAtSiteStep(cs: seq<Child>, site: ModificationSite)
    requires cs != []
    ensures ChildrenAtSite(cs, site) ==
      if cs[0].site == site then [cs[0].ion] + ChildrenAtSite(cs[1..], site) else ChildrenAtSite(cs[1..], site)
  {
  }

  /** Each ion is returned once for every entry that pairs it with the site. */
  lemma {:induction false} ChildrenAtSiteCounts(cs: seq<Child>, site: ModificationSite, x: ComplexFragmentIon)
    ensures multiset(ChildrenAtSite(cs, site))[x] == multiset(cs)[Child(site, x)]
    decreases |cs|
  {
    if cs != [] {
      ChildrenAtSiteCounts(cs[1..], site, x);
      ChildrenAtSiteStep(cs, site);
      var rest := ChildrenAtSite(cs[1..], site);
      MultisetOfFirstAndRest(cs);
      if cs[0].site == site {
        assert multiset([cs[0].ion] + rest) == multiset([cs[0].ion]) + multiset(rest);
      }
    }
  }

  lemma JoinTail(a: seq<Child>, b: seq<Child>)
    requires a != []
    ensures (a + b)[0] == a[0] && (a + b)[1..] == a[1..] + b
  {
  }

  lemma MultisetOfFirstAndRest(cs: seq<Child>)
    requires cs != []
    ensures multiset(cs) == multiset{cs[0]} + multiset(cs[1..])
  {
    assert cs == [cs[0]] + cs[1..];
  }

  /** One entry contributes its ion when it is at the site and nothing otherwise. */
  lemma ChildrenAtSiteOfOne(c: Child, site: ModificationSite)
    ensures ChildrenAtSite([c], site) == if c.site == site then [c.ion] else []
  {
  }

  /** An entry at the site gives at least one ion. */
  lemma {:induction false} EntryAtSite(cs: seq<Child>, site: ModificationSite, j: int)
    requires 0 <= j < |cs| && cs[j].site == site
    ensures |ChildrenAtSite(cs, site)| >= 1
    decreases |cs|
  {
    ChildrenAtSiteStep(cs, site);
    if j > 0 {
      EntryAtSite(cs[1..], site, j - 1);
    }
  }

  /** Two entries at the same site give at least two ions, the case GetCrosslinkFormula refuses. */
  lemma {:induction false} TwoEntriesAtSite(cs: seq<Child>, site: ModificationSite, i: int, j: int)
    requires 0 <= i < j < |cs| && cs[i].site == site && cs[j].site == site
    ensures |ChildrenAtSite(cs, site)| >= 2
    decreases |cs|
  {
    ChildrenAtSiteStep(cs, site);
    if i > 0 {
      TwoEntriesAtSite(cs[1..], site, i - 1, j - 1);
    } else {
      EntryAtSite(cs[1..], site, j - 1);
    }
  }

  /** The ions at a site of an ion are smaller than it, so the formula recursion below ends. */
  lemma ChildrenAtSiteAreSmaller(ion: ComplexFragmentIon, site: ModificationSite)
    ensures forall x :: x in ChildrenAtSite(ion.children, site) ==> x < ion
  {
    forall x | x in ChildrenAtSite(ion.children, site)
      ensures x < ion
    {
      var k :| 0 <= k < |ion.children| && ion.children[k] == Child(site, x);
      assert ion.children[k].ion == x;
    }
  }

  // ---------------------------------------------------------------------------
  // GetFragmentationEventCount

  /** Events of the ion itself: one cleavage unless orphan or precursor, plus one per loss. */
  function OwnEvents(ion: ComplexFragmentIon): nat
  {
    (if !ion.isOrphan && !IsPrecursor(ion.transition) then 1 else 0)
    + (match ion.losses case None => 0 case Some(ls) => |ls|)
  }

  /** GetFragmentationEventCount: the ion's own events plus those of every child, recursively. */
  function EventCount(ion: ComplexFragmentIon): (n: int)
    ensures n >= OwnEvents(ion)
    decreases ion, 1
  {
    var counts := ChildEventCounts(ion);
    SumNonNegative(counts);
    OwnEvents(ion) + Sum(counts)
  }

  function ChildEventCounts(ion: ComplexFragmentIon): (r: seq<int>)
    ensures |r| == |ion.children|
    ensures forall i :: 0 <= i < |r| ==> r[i] == EventCount(ion.children[i].ion) && r[i] >= 0
    decreases ion, 0
  {
    seq(|ion.children|, i requires 0 <= i < |ion.children| => EventCount(ion.children[i].ion))
  }

  /** The counts of a list of children, in order. */
  function EventCounts(cs: seq<Child>): (r: seq<int>)
    ensures |r| == |cs|
    ensures forall i :: 0 <= i < |r| ==> r[i] == EventCount(cs[i].ion)
  {
    seq(|cs|, i requires 0 <= i < |cs| => EventCount(cs[i].ion))
  }

  /** The sum of a list of integers, the last one added last. */
  function Sum(xs: seq<int>): int
  {
    if xs == [] then 0 else Sum(xs[..|xs| - 1]) + xs[|xs| - 1]
  }

  lemma {:induction false} SumNonNegative(xs: seq<int>)
    requires forall i :: 0 <= i < |xs| ==> xs[i] >= 0
    ensures Sum(xs) >= 0
  {
    if xs != [] {
      SumNonNegative(xs[..|xs| - 1]);
    }
  }

  /** The count of an ion is its own events plus the counts of its children. */
  lemma EventCountOfChildren(ion: ComplexFragmentIon)
    ensures EventCount(ion) == OwnEvents(ion) + Sum(EventCounts(ion.children))
  {
    assert ChildEventCounts(ion) == EventCounts(ion.children);
  }

  /** One more child at the end adds its count. */
  lemma SumCountsSnoc(cs: seq<Child>, c: Child)
    ensures Sum(EventCounts(cs + [c])) == Sum(EventCounts(cs)) + EventCount(c.ion)
  {
    var xs := EventCounts(cs + [c]);
    assert xs[..|xs| - 1] == EventCounts(cs);
  }

  lemma {:induction false} InsertAddsCount(c: Child, cs: seq<Child>)
    ensures Sum(EventCounts(InsertBySite(c, cs))) == Sum(EventCounts(cs)) + EventCount(c.ion)
  {
    if cs == [] {
      SumCountsSnoc([], c);
      assert [] + [c] == [c];
    } else if SiteLe(cs[|cs| - 1].site, c.site) {
      SumCountsSnoc(cs, c);
    } else {
      var last := cs[|cs| - 1];
      var init := cs[..|cs| - 1];
      InsertAddsCount(c, init);
      SumCountsSnoc(InsertBySite(c, init), last);
      SumCountsLast(cs);
    }
  }

  /** The counts of a list are those of all but its last entry, then the last. */
  lemma SumCountsLast(cs: seq<Child>)
    requires cs != []
    ensures Sum(EventCounts(cs)) == Sum(EventCounts(cs[..|cs| - 1])) + EventCount(cs[|cs| - 1].ion)
  {
    var xs := EventCounts(cs);
    assert xs[..|xs| - 1] == EventCounts(cs[..|cs| - 1]);
  }

  lemma {:induction false} SortKeepsCount(cs: seq<Child>)
    ensures Sum(EventCounts(SortBySite(cs))) == Sum(EventCounts(cs))
  {
    if cs != [] {
      var init := cs[..|cs| - 1];
      var last := cs[|cs| - 1];
      var sorted := SortBySite(init);
      assert SortBySite(cs) == InsertBySite(last, sorted);
      SortKeepsCount(init);
      InsertAddsCount(last, sorted);
      SumCountsLast(cs);
    }
  }

  /** Adding a child adds the child's fragmentation events and nothing else. */
  lemma AddChildAddsEvents(ion: ComplexFragmentIon, site: ModificationSite, child: ComplexFragmentIon)
    requires AddChild(ion, site, child).Ok?
    ensures EventCount(AddChild(ion, site, child).value) == EventCount(ion) + EventCount(child)
  {
    var r := AddChild(ion, site, child).value;
    var cs := ion.children + [Child(site, child)];
    EventCountOfChildren(ion);
    EventCountOfChildren(r);
    SortKeepsCount(cs);
    SumCountsSnoc(ion.children, Child(site, child));
  }

  /** An orphan, a precursor ion with no losses and no children has no fragmentation event. */
  lemma EventCountOfNewOrphan(group: TransitionGroup, mods: Option<ExplicitMods>)
    ensures EventCount(NewOrphanFragmentIon(group, mods)) == 0
  {
    EventCountOfChildren(NewOrphanFragmentIon(group, mods));
  }

  // ---------------------------------------------------------------------------
  // IncludesAaIndex

  /**
   * IncludesAaIndex: whether the fragment keeps residue aaIndex. A precursor
   * or custom ion keeps every residue, an a/b/c ion those up to its cleavage
   * offset, an x/y/z ion those after it.
   */
  function IncludesAaIndex(ion: ComplexFragmentIon, aaIndex: int): (r: bool)
    ensures ion.transition.ionType in {A, B, C} ==> (r <==> aaIndex <= ion.transition.cleavageOffset)
    ensures ion.transition.ionType in {X, Y, Z} ==> (r <==> aaIndex > ion.transition.cleavageOffset)
    ensures ion.transition.ionType in {Precursor, Custom} ==> r
  {
    match ion.transition.ionType
    case Precursor => true
    case A | B | C => ion.transition.cleavageOffset >= aaIndex
    case X | Y | Z => ion.transition.cleavageOffset < aaIndex
    case _ => true
  }

  /** At the same cleavage, an N-terminal and a C-terminal fragment share no residue and together hold every one. */
  lemma ComplementaryFragments(n: ComplexFragmentIon, c: ComplexFragmentIon, aaIndex: int)
    requires n.transition.ionType in {A, B, C} && c.transition.ionType in {X, Y, Z}
    requires n.transition.cleavageOffset == c.transition.cleavageOffset
    ensures IncludesAaIndex(n, aaIndex) != IncludesAaIndex(c, aaIndex)
  {
  }

  // ---------------------------------------------------------------------------
  // Formulas

  /** GetSimpleFragmentFormula: nothing for an orphan, otherwise the fragment's own formula. */
  function SimpleFragmentFormula(ion: ComplexFragmentIon, mods: Option<ExplicitMods>, fragmentFormula: FragmentFormulaOf): (r: Formula)
    ensures ion.isOrphan ==> r == EMPTY_FORMULA
    ensures !ion.isOrphan ==> r == fragmentFormula(ion.transition, ion.losses, mods)
  {
    if ion.isOrphan then EMPTY_FORMULA else fragmentFormula(ion.transition, ion.losses, mods)
  }

  /**
   * GetNeutralFormula: the simple fragment formula plus, for every static
   * modification with a linked peptide, in order, the crosslink formula at
   * its site; the first exception ends it.
   */
  function NeutralFormula(ion: ComplexFragmentIon, mods: Option<ExplicitMods>, fragmentFormula: FragmentFormulaOf): Result<Formula, IonError>
    decreases ion, 2
  {
    var simple := SimpleFragmentFormula(ion, mods, fragmentFormula);
    match mods
    case None => Ok(simple)
    case Some(m) => LinkedFormulas(ion, simple, m.staticModifications, fragmentFormula)
  }

  /** The loop over the modifications of GetNeutralFormula, from the formula so far. */
  function LinkedFormulas(ion: ComplexFragmentIon, acc: Formula, ms: seq<ExplicitMod>, fragmentFormula: FragmentFormulaOf): Result<Formula, IonError>
    decreases ion, 1, |ms|
  {
    if ms == [] then Ok(acc)
    else if ms[0].linkedPeptide.None? then LinkedFormulas(ion, acc, ms[1..], fragmentFormula)
    else
      match CrosslinkFormula(ion, ms[0], fragmentFormula)
      case Err(e) => Err(e)
      case Ok(f) => LinkedFormulas(ion, Plus(acc, f), ms[1..], fragmentFormula)
  }

  /**
   * GetCrosslinkFormula: nothing when no child sits at the modification's
   * site, ArgumentException when several do; otherwise the neutral formula
   * of that child under the linked peptide's modifications (a null linked
   * peptide is a NullReferenceException).
   */
  function CrosslinkFormula(ion: ComplexFragmentIon, mod: ExplicitMod, fragmentFormula: FragmentFormulaOf): Result<Formula, IonError>
    decreases ion, 0
  {
    var children := ChildrenAtSite(ion.children, mod.modificationSite);
    if |children| == 0 then Ok(EMPTY_FORMULA)
    else if |children| != 1 then Err(ArgumentException)
    else
      match mod.linkedPeptide
      case None => Err(NullReference)
      case Some(linked) =>
        ChildrenAtSiteAreSmaller(ion, mod.modificationSite);
        assert children[0] in children;
        match NeutralFormula(children[0], linked.explicitMods, fragmentFormula)
        case Err(e) => Err(e)
        case Ok(f) => Ok(Plus(EMPTY_FORMULA, f))
  }

  /** The three cases of GetCrosslinkFormula by the number of children at the site. */
  lemma CrosslinkFormulaCases(ion: ComplexFragmentIon, mod: ExplicitMod, fragmentFormula: FragmentFormulaOf)
    ensures var children := ChildrenAtSite(ion.children, mod.modificationSite);
      && (|children| == 0 ==> CrosslinkFormula(ion, mod, fragmentFormula) == Ok(EMPTY_FORMULA))
      && (|children| > 1 ==> CrosslinkFormula(ion, mod, fragmentFormula) == Err(ArgumentException))
      && (|children| == 1 && mod.linkedPeptide.None? ==> CrosslinkFormula(ion, mod, fragmentFormula) == Err(NullReference))
      && (|children| == 1 && mod.linkedPeptide.Some? ==>
            CrosslinkFormula(ion, mod, fragmentFormula) == NeutralFormula(children[0], mod.linkedPeptide.value.explicitMods, fragmentFormula))
  {
    var children := ChildrenAtSite(ion.children, mod.modificationSite);
    if |children| == 1 && mod.linkedPeptide.Some? {
      var r := NeutralFormula(children[0], mod.linkedPeptide.value.explicitMods, fragmentFormula);
      if r.Ok? {
        PlusEmpty(r.value);
      }
    }
  }

  /**
   * GetCrosslinkFormula in terms of the entries of the children list: none at
   * the site gives the empty formula, two or more give ArgumentException, and
   * exactly one, at position k, gives the neutral formula of that entry's ion.
   */
  lemma CrosslinkFormulaByEntries(ion: ComplexFragmentIon, mod: ExplicitMod, fragmentFormula: FragmentFormulaOf)
    ensures var cs, site := ion.children, mod.modificationSite;
      && ((forall k :: 0 <= k < |cs| ==> cs[k].site != site) ==> CrosslinkFormula(ion, mod, fragmentFormula) == Ok(EMPTY_FORMULA))
      && ((exists i, j :: 0 <= i < j < |cs| && cs[i].site == site && cs[j].site == site) ==>
            CrosslinkFormula(ion, mod, fragmentFormula) == Err(ArgumentException))
      && (forall k ::
            (0 <= k < |cs| && cs[k].site == site && mod.linkedPeptide.Some? &&
             (forall k' :: 0 <= k' < |cs| && k' != k ==> cs[k'].site != site)) ==>
            CrosslinkFormula(ion, mod, fragmentFormula) == NeutralFormula(cs[k].ion, mod.linkedPeptide.value.explicitMods, fragmentFormula))
  {
    var cs, site := ion.children, mod.modificationSite;
    CrosslinkFormulaCases(ion, mod, fragmentFormula);
    if forall k :: 0 <= k < |cs| ==> cs[k].site != site {
      NoEntryAtSite(cs, site);
    }
    if exists i, j :: 0 <= i < j < |cs| && cs[i].site == site && cs[j].site == site {
      var i, j :| 0 <= i < j < |cs| && cs[i].site == site && cs[j].site == site;
      TwoEntriesAtSite(cs, site, i, j);
    }
    forall k | 0 <= k < |cs| && cs[k].site == site && mod.linkedPeptide.Some? &&
        (forall k' :: 0 <= k' < |cs| && k' != k ==> cs[k'].site != site)
      ensures CrosslinkFormula(ion, mod, fragmentFormula) == NeutralFormula(cs[k].ion, mod.linkedPeptide.value.explicitMods, fragmentFormula)
    {
      OneEntryAtSite(cs, site, k);
    }
  }

  /** No entry at the site gives no ion. */
  lemma {:induction false} NoEntryAtSite(cs: seq<Child>, site: ModificationSite)
    requires forall k :: 0 <= k < |cs| ==> cs[k].site != site
    ensures ChildrenAtSite(cs, site) == []
    decreases |cs|
  {
    if cs != [] {
      ChildrenAtSiteStep(cs, site);
      NoEntryAtSite(cs[1..], site);
    }
  }

  /** Exactly one entry at the site gives exactly its ion. */
  lemma OneEntryAtSite(cs: seq<Child>, site: ModificationSite, k: int)
    requires 0 <= k < |cs| && cs[k].site == site
    requires forall k' :: 0 <= k' < |cs| && k' != k ==> cs[k'].site != site
    ensures ChildrenAtSite(cs, site) == [cs[k].ion]
  {
    var front, back := cs[..k], cs[k + 1..];
    assert cs == front + ([cs[k]] + back);
    assert forall m :: 0 <= m < |front| ==> front[m] == cs[m];
    assert forall m :: 0 <= m < |back| ==> back[m] == cs[k + 1 + m];
    NoEntryAtSite(front, site);
    NoEntryAtSite(back, site);
    ChildrenAtSiteOfJoin(front, [cs[k]] + back, site);
    ChildrenAtSiteOfJoin([cs[k]], back, site);
    ChildrenAtSiteOfOne(cs[k], site);
  }

  /** Modifications without linked peptides add nothing to the formula. */
  lemma {:induction false} UnlinkedModsAddNothing(ion: ComplexFragmentIon, acc: Formula, ms: seq<ExplicitMod>, fragmentFormula: FragmentFormulaOf)
    requires forall k :: 0 <= k < |ms| ==> ms[k].linkedPeptide.None?
    ensures LinkedFormulas(ion, acc, ms, fragmentFormula) == Ok(acc)
    decreases |ms|
  {
    if ms != [] {
      UnlinkedModsAddNothing(ion, acc, ms[1..], fragmentFormula);
    }
  }

  /** An orphan with no crosslinks in its modifications has the empty formula. */
  lemma OrphanFormulaIsEmpty(ion: ComplexFragmentIon, mods: Option<ExplicitMods>, fragmentFormula: FragmentFormulaOf)
    requires ion.isOrphan
    requires mods.Some? ==> forall k :: 0 <= k < |mods.value.staticModifications| ==> mods.value.staticModifications[k].linkedPeptide.None?
    ensures NeutralFormula(ion, mods, fragmentFormula) == Ok(EMPTY_FORMULA)
  {
    if mods.Some? {
      UnlinkedModsAddNothing(ion, EMPTY_FORMULA, mods.value.staticModifications, fragmentFormula);
    }
  }

  method GetNeutralFormula(ion: ComplexFragmentIon, mods: Option<ExplicitMods>, fragmentFormula: FragmentFormulaOf)
    returns (r: Result<Formula, IonError>)
    ensures r == NeutralFormula(ion, mods, fragmentFormula)
    decreases ion, 1
  {
    var result := SimpleFragmentFormula(ion, mods, fragmentFormula);
    if mods.Some? {
      var ms := mods.value.staticModifications;
      var i := 0;
      while i < |ms|
        invariant 0 <= i <= |ms|
        invariant LinkedFormulas(ion, result, ms[i..], fragmentFormula) == NeutralFormula(ion, mods, fragmentFormula)
      {
        assert ms[i..][1..] == ms[i + 1..];
        if ms[i].linkedPeptide.Some? {
          var f := GetCrosslinkFormula(ion, ms[i], fragmentFormula);
          if f.Err? {
            return Err(f.error);
          }
          result := Plus(result, f.value);
        }
        i := i + 1;
      }
    }
    return Ok(result);
  }

  method GetCrosslinkFormula(ion: ComplexFragmentIon, mod: ExplicitMod, fragmentFormula: FragmentFormulaOf)
    returns (r: Result<Formula, IonError>)
    ensures r == CrosslinkFormula(ion, mod, fragmentFormula)
    decreases ion, 0
  {
    var children := ChildrenAtSite(ion.children, mod.modificationSite);
    if |children| == 0 {
      return Ok(EMPTY_FORMULA);
    }
    if |children| != 1 {
      return Err(ArgumentException);
    }
    if mod.linkedPeptide.None? {
      return Err(NullReference);
    }
    ChildrenAtSiteAreSmaller(ion, mod.modificationSite);
    assert children[0] in children;
    var childFormula := GetNeutralFormula(children[0], mod.linkedPeptide.value.explicitMods, fragmentFormula);
    if childFormula.Err? {
      return Err(childFormula.error);
    }
    return Ok(Plus(EMPTY_FORMULA, childFormula.value));
  }

  // ---------------------------------------------------------------------------
  // GetName

  datatype NameHead = OrphanHead | FragmentHead(ionType: IonType, ordinal: int)

  /** ComplexFragmentIonName: a head, the names of the children at their sites, and the losses. */
  datatype FragmentName = FragmentName(head: NameHead, children: seq<NamedChild>, losses: seq<string>)

  datatype NamedChild = NamedChild(site: ModificationSite, name: FragmentName)

  /** ComplexFragmentIonName.ORPHAN. */
  const ORPHAN_NAME: FragmentName := FragmentName(OrphanHead, [], [])

  /** ComplexFragmentIonName.AddChild: the child's name after those already there. */
  function AddChildName(name: FragmentName, site: ModificationSite, child: FragmentName): (r: FragmentName)
    ensures r.head == name.head && r.losses == name.losses
    ensures r.children == name.children + [NamedChild(site, child)]
  {
    name.(children := name.children + [NamedChild(site, child)])
  }

  /** ComplexFragmentIonName.AddLoss: the loss after those already there. */
  function AddLossName(name: FragmentName, loss: string): (r: FragmentName)
    ensures r.head == name.head && r.children == name.children
    ensures r.losses == name.losses + [loss]
  {
    name.(losses := name.losses + [loss])
  }

  /** The head of the name: ORPHAN, or the ion type and ordinal of the transition. */
  function HeadOf(ion: ComplexFragmentIon, ordinal: Transition -> int): NameHead
  {
    if ion.isOrphan then OrphanHead else FragmentHead(ion.transition.ionType, ordinal(ion.transition))
  }

  /** The texts of the losses, in order; none for null losses. */
  function LossTexts(losses: Option<seq<Loss>>): (r: seq<string>)
    ensures losses.None? ==> r == []
    ensures losses.Some? ==> |r| == |losses.value| && forall i :: 0 <= i < |r| ==> r[i] == losses.value[i].text
  {
    match losses
    case None => []
    case Some(ls) => seq(|ls|, i requires 0 <= i < |ls| => ls[i].text)
  }

  /**
   * The name GetName builds: the head, then every child's name at its site
   * in the order of Children, then every loss in order.
   */
  function NameOf(ion: ComplexFragmentIon, ordinal: Transition -> int): (r: FragmentName)
    ensures r.head.OrphanHead? <==> ion.isOrphan
    ensures |r.children| == |ion.children|
    ensures forall i :: 0 <= i < |r.children| ==> r.children[i].site == ion.children[i].site
    ensures r.losses == LossTexts(ion.losses)
    decreases ion, 1
  {
    FragmentName(HeadOf(ion, ordinal), ChildNames(ion, ordinal), LossTexts(ion.losses))
  }

  function ChildNames(ion: ComplexFragmentIon, ordinal: Transition -> int): (r: seq<NamedChild>)
    ensures |r| == |ion.children|
    ensures forall i :: 0 <= i < |r| ==> r[i] == NamedChild(ion.children[i].site, NameOf(ion.children[i].ion, ordinal))
    decreases ion, 0
  {
    seq(|ion.children|, i requires 0 <= i < |ion.children| => NamedChild(ion.children[i].site, NameOf(ion.children[i].ion, ordinal)))
  }

  /** The name of a new orphan is ORPHAN, with no child and no loss. */
  lemma NameOfNewOrphan(group: TransitionGroup, mods: Option<ExplicitMods>, ordinal: Transition -> int)
    ensures NameOf(NewOrphanFragmentIon(group, mods), ordinal) == ORPHAN_NAME
  {
  }

  /** Every child of an ion appears in its name, named by its own name, at its site. */
  lemma ChildIsNamed(ion: ComplexFragmentIon, c: Child, ordinal: Transition -> int)
    requires c in multiset(ion.children)
    ensures NamedChild(c.site, NameOf(c.ion, ordinal)) in NameOf(ion, ordinal).children
  {
    var k :| 0 <= k < |ion.children| && ion.children[k] == c;
    assert NameOf(ion, ordinal).children[k] == NamedChild(c.site, NameOf(c.ion, ordinal));
  }

  /** Every named child of an ion is the name of one of its children. */
  lemma NamedIsChild(ion: ComplexFragmentIon, nc: NamedChild, ordinal: Transition -> int)
    requires nc in NameOf(ion, ordinal).children
    ensures exists c :: c in ion.children && nc == NamedChild(c.site, NameOf(c.ion, ordinal))
  {
    var k :| 0 <= k < |ion.children| && NameOf(ion, ordinal).children[k] == nc;
    assert ion.children[k] in ion.children;
  }

  /** After AddChild, the name holds the new child's name and every name it held before, with head and losses unchanged. */
  lemma NameOfAddChild(ion: ComplexFragmentIon, site: ModificationSite, child: ComplexFragmentIon, ordinal: Transition -> int)
    requires AddChild(ion, site, child).Ok?
    ensures var r := AddChild(ion, site, child).value;
      && NameOf(r, ordinal).head == NameOf(ion, ordinal).head
      && NameOf(r, ordinal).losses == NameOf(ion, ordinal).losses
      && |NameOf(r, ordinal).children| == |NameOf(ion, ordinal).children| + 1
      && NamedChild(site, NameOf(child, ordinal)) in NameOf(r, ordinal).children
      && forall nc :: nc in NameOf(ion, ordinal).children ==> nc in NameOf(r, ordinal).children
  {
    var r := AddChild(ion, site, child).value;
    AddChildSorts(ion, site, child);
    ChildIsNamed(r, Child(site, child), ordinal);
    forall nc | nc in NameOf(ion, ordinal).children
      ensures nc in NameOf(r, ordinal).children
    {
      NamedIsChild(ion, nc, ordinal);
      var c :| c in ion.children && nc == NamedChild(c.site, NameOf(c.ion, ordinal));
      ChildIsNamed(r, c, ordinal);
    }
  }

  /** GetName: the head, then a loop adding the children's names, then a loop adding the losses. */
  method GetName(ion: ComplexFragmentIon, ordinal: Transition -> int) returns (name: FragmentName)
    ensures name == NameOf(ion, ordinal)
    decreases ion
  {
    if ion.isOrphan {
      name := ORPHAN_NAME;
    } else {
      name := FragmentName(FragmentHead(ion.transition.ionType, ordinal(ion.transition)), [], []);
    }
    var i := 0;
    while i < |ion.children|
      invariant 0 <= i <= |ion.children|
      invariant name == FragmentName(HeadOf(ion, ordinal), ChildNames(ion, ordinal)[..i], [])
    {
      var child := ion.children[i];
      assert child in ion.children;
      var childName := GetName(child.ion, ordinal);
      assert ChildNames(ion, ordinal)[..i + 1] == ChildNames(ion, ordinal)[..i] + [NamedChild(child.site, childName)];
      name := AddChildName(name, child.site, childName);
      i := i + 1;
    }
    assert ChildNames(ion, ordinal)[..i] == ChildNames(ion, ordinal);
    if ion.losses.Some? {
      var losses := ion.losses.value;
      var j := 0;
      while j < |losses|
        invariant 0 <= j <= |losses|
        invariant name == FragmentName(HeadOf(ion, ordinal), ChildNames(ion, ordinal), LossTexts(ion.losses)[..j])
      {
        assert LossTexts(ion.losses)[..j + 1] == LossTexts(ion.losses)[..j] + [losses[j].text];
        name := AddLossName(name, losses[j].text);
        j := j + 1;
      }
      assert LossTexts(ion.losses)[..j] == LossTexts(ion.losses);
    }
  }
}
