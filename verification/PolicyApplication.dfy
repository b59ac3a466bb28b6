/** How far a connector policy has been applied to the members it governs, and which decision each tool gets from the
    organisation's and the connector's policies together. */
module PolicyApplication {
  import opened Text

  datatype Version = Version(number: nat, hash: string)

  datatype Member = Member(active: bool, policy: Option<Version>)

  /** What the signing authority says, when it is asked. */
  datatype Authority = Authority(currentVersion: Option<Version>, conflict: bool)

  datatype State = Empty | Current | Mixed | Conflict | Unassigned

  datatype Count = Count(version: Version, members: nat)

  datatype View = View(state: State, currentVersion: Option<Version>, activeMembers: nat, currentMembers: nat,
                       remediationRequired: nat, unassigned: nat, versions: seq<Count>)

  function ActiveOf(members: seq<Member>): seq<Member> {
    if members == [] then []
    else ActiveOf(members[..|members| - 1]) + if members[|members| - 1].active then [members[|members| - 1]] else []
  }

  function PoliciesOf(members: seq<Member>): seq<Version> {
    if members == [] then []
    else
      var last := members[|members| - 1];
      PoliciesOf(members[..|members| - 1]) + if last.policy.Some? then [last.policy.value] else []
  }

  /** A character's place among UTF-16 units: a supplementary one starts with a surrogate, before the units from
      E000. */
  function Unit(c: char): int {
    if c <= '\U{D7FF}' then c as int else if c >= '\U{10000}' then c as int - 0x1_0000 + 0xD800
      else c as int + 0x10_0000
  }

  /** A character's UTF-16 units. */
  function Units(c: char): (units: (int, int))
    ensures 0 <= units.0 < 0x1_0000 && 0 <= units.1 < 0x1_0000
  {
    var n := c as int;
    if n < 0x1_0000 then (n, 0) else (0xD800 + (n - 0x1_0000) / 0x400, 0xDC00 + (n - 0x1_0000) % 0x400)
  }

  /** Characters are ordered as their UTF-16 units are. */
  lemma {:induction false} UnitOrder(a: char, b: char)
    ensures Unit(a) < Unit(b) <==> Units(a).0 < Units(b).0 || (Units(a).0 == Units(b).0 && Units(a).1 < Units(b).1)
  {
  }

  /** The order of UTF-16 units; on hashes, which are hexadecimal, the locale orders the same way. */
  predicate Precedes(a: string, b: string) {
    if a == "" then b != ""
    else b != "" && (Unit(a[0]) < Unit(b[0]) || (a[0] == b[0] && Precedes(a[1..], b[1..])))
  }

  /** Newest first, then by ascending hash. */
  predicate Ahead(a: Version, b: Version) {
    a.number > b.number || (a.number == b.number && Precedes(a.hash, b.hash))
  }

  lemma {:induction false} PrecedesTotal(a: string, b: string)
    ensures !Precedes(a, a) && (a != b ==> Precedes(a, b) || Precedes(b, a))
  {
    if a != "" {
      PrecedesTotal(a[1..], if b == "" then "" else b[1..]);
      if b != "" && a != b && a[0] == b[0] {
        assert a == [a[0]] + a[1..] && b == [b[0]] + b[1..];
      }
    }
  }

  lemma {:induction false} PrecedesTransitive(a: string, b: string, c: string)
    requires Precedes(a, b) && Precedes(b, c)
    ensures Precedes(a, c)
  {
    if a != "" && a[0] == b[0] == c[0] {
      PrecedesTransitive(a[1..], b[1..], c[1..]);
    }
  }

  lemma {:induction false} AheadTransitive(a: Version, b: Version, c: Version)
    requires Ahead(a, b) && Ahead(b, c)
    ensures Ahead(a, c) && a != c
  {
    if a.number == b.number == c.number {
      PrecedesTransitive(a.hash, b.hash, c.hash);
    }
    PrecedesTotal(a.hash, c.hash);
  }

  predicate Sorted(counts: seq<Count>) {
    forall i, j :: 0 <= i < j < |counts| ==> Ahead(counts[i].version, counts[j].version)
  }

  /** The counts are those of the policies: every assigned version once, with the number of its members. */
  ghost predicate Tallies(counts: seq<Count>, policies: seq<Version>) {
    && (forall i :: 0 <= i < |counts| ==> counts[i].members == multiset(policies)[counts[i].version] > 0)
    && forall v :: v in policies ==> exists i :: 0 <= i < |counts| && counts[i].version == v
  }

  function Total(counts: seq<Count>): nat {
    if counts == [] then 0 else Total(counts[..|counts| - 1]) + counts[|counts| - 1].members
  }

  function Find(counts: seq<Count>, v: Version): (k: nat)
    ensures k <= |counts| && (k < |counts| ==> counts[k].version == v)
    ensures k == |counts| ==> forall i :: 0 <= i < |counts| ==> counts[i].version != v
  {
    if counts == [] then 0
    else
      var n := |counts| - 1;
      var k := Find(counts[..n], v);
      if k < n then k else if counts[n].version == v then n else |counts|
  }

  predicate DistinctVersions(counts: seq<Count>) {
    forall i, j :: 0 <= i < j < |counts| ==> counts[i].version != counts[j].version
  }

  /** The grouping loop over the assigned members. */
  method Group(policies: seq<Version>) returns (counts: seq<Count>)
    ensures Tallies(counts, policies) && DistinctVersions(counts) && Total(counts) == |policies|
  {
    counts := [];
    NothingTallied();
    hide *;
    for n := 0 to |policies|
      invariant policies[..0] == []
      invariant Tallies(counts, policies[..n]) && DistinctVersions(counts) && Total(counts) == n
    {
      var v := policies[n];
      assert policies[..n + 1] == policies[..n] + [v];
      var k := Find(counts, v);
      TallyNext(counts, policies[..n], v, k);
      if k < |counts| {
        counts := counts[k := Count(v, counts[k].members + 1)];
      } else {
        counts := counts + [Count(v, 1)];
      }
    }
    assert policies[..|policies|] == policies;
  }

  lemma {:induction false} NothingTallied()
    ensures Tallies([], []) && DistinctVersions([]) && Total([]) == 0
  {
  }

  lemma {:induction false} TallyNext(counts: seq<Count>, policies: seq<Version>, v: Version, k: nat)
    requires Tallies(counts, policies) && DistinctVersions(counts) && k == Find(counts, v)
    ensures var next := if k < |counts| then counts[k := Count(v, counts[k].members + 1)] else counts + [Count(v, 1)];
            Tallies(next, policies + [v]) && DistinctVersions(next) && Total(next) == Total(counts) + 1
  {
    if k < |counts| {
      assert counts[k].version == v;
      hide Find, Total;
      TotalUpdate(counts, k, Count(v, counts[k].members + 1));
      TallyKnown(counts, policies, v, k);
    } else {
      assert forall i :: 0 <= i < |counts| ==> counts[i].version != v;
      hide Find, Total;
      TotalSnoc(counts, Count(v, 1));
      TallyNew(counts, policies, v);
    }
  }

  lemma {:induction false} TallyKnown(counts: seq<Count>, policies: seq<Version>, v: Version, k: nat)
    requires Tallies(counts, policies) && DistinctVersions(counts) && k < |counts| && counts[k].version == v
    ensures var next := counts[k := Count(v, counts[k].members + 1)];
            Tallies(next, policies + [v]) && DistinctVersions(next)
  {
    var next := counts[k := Count(v, counts[k].members + 1)];
    assert forall i :: 0 <= i < |counts| ==> next[i].version == counts[i].version;
    forall u | u in policies + [v] ensures exists i :: 0 <= i < |next| && next[i].version == u {
      if u == v {
        assert next[k].version == v;
      } else {
        var i :| 0 <= i < |counts| && counts[i].version == u;
        assert next[i].version == u;
      }
    }
  }

  lemma {:induction false} TallyNew(counts: seq<Count>, policies: seq<Version>, v: Version)
    requires Tallies(counts, policies) && DistinctVersions(counts)
    requires forall i :: 0 <= i < |counts| ==> counts[i].version != v
    ensures var next := counts + [Count(v, 1)]; Tallies(next, policies + [v]) && DistinctVersions(next)
  {
    var next := counts + [Count(v, 1)];
    assert v !in policies;
    assert forall i :: 0 <= i < |counts| ==> next[i] == counts[i];
    forall u | u in policies + [v] ensures exists i :: 0 <= i < |next| && next[i].version == u {
      if u == v {
        assert next[|counts|].version == v;
      } else {
        var i :| 0 <= i < |counts| && counts[i].version == u;
        assert next[i].version == u;
      }
    }
  }

  lemma {:induction false} TotalUpdate(counts: seq<Count>, k: nat, c: Count)
    requires k < |counts|
    ensures Total(counts[k := c]) == Total(counts) - counts[k].members + c.members
  {
    var n := |counts| - 1;
    if k < n {
      TotalUpdate(counts[..n], k, c);
      assert counts[k := c][..n] == counts[..n][k := c];
    } else {
      assert counts[k := c][..n] == counts[..n];
    }
  }

  function Insert(sorted: seq<Count>, c: Count): seq<Count> {
    if sorted == [] || Ahead(sorted[|sorted| - 1].version, c.version) then sorted + [c]
    else Insert(sorted[..|sorted| - 1], c) + [sorted[|sorted| - 1]]
  }

  function SortCounts(counts: seq<Count>): seq<Count> {
    if counts == [] then [] else Insert(SortCounts(counts[..|counts| - 1]), counts[|counts| - 1])
  }

  /** The same counts in another order. */
  ghost predicate Rearranged(a: seq<Count>, b: seq<Count>) {
    |a| == |b| && (forall c :: c in a <==> c in b) && Total(a) == Total(b)
  }

  lemma {:induction false} InsertSorts(sorted: seq<Count>, c: Count)
    requires Sorted(sorted) && forall i :: 0 <= i < |sorted| ==> sorted[i].version != c.version
    ensures Sorted(Insert(sorted, c)) && Rearranged(Insert(sorted, c), sorted + [c])
  {
    assert (sorted + [c])[..|sorted|] == sorted;
    if !(sorted == [] || Ahead(sorted[|sorted| - 1].version, c.version)) {
      var init, last := sorted[..|sorted| - 1], sorted[|sorted| - 1];
      assert sorted == init + [last] && (init + [c])[..|init|] == init;
      InsertSorts(init, c);
      PrecedesTotal(last.version.hash, c.version.hash);
      InsertedBefore(Insert(init, c), init, c, last);
    } else {
      InsertedLast(sorted, c);
    }
  }

  lemma {:induction false} InsertedLast(sorted: seq<Count>, c: Count)
    requires Sorted(sorted) && (sorted == [] || Ahead(sorted[|sorted| - 1].version, c.version))
    ensures Sorted(sorted + [c])
  {
    hide Ahead;
    forall i | 0 <= i < |sorted| ensures Ahead(sorted[i].version, c.version) {
      if i < |sorted| - 1 {
        AheadTransitive(sorted[i].version, sorted[|sorted| - 1].version, c.version);
      }
    }
  }

  lemma {:induction false} InsertedBefore(inserted: seq<Count>, init: seq<Count>, c: Count, last: Count)
    requires Sorted(inserted) && Rearranged(inserted, init + [c]) && Sorted(init + [last])
             && Ahead(c.version, last.version)
    ensures Sorted(inserted + [last]) && Rearranged(inserted + [last], init + [last] + [c])
  {
    hide Ahead, Total;
    forall i | 0 <= i < |inserted| ensures Ahead(inserted[i].version, last.version) {
      assert inserted[i] in init + [c];
      if inserted[i] != c {
        var j :| 0 <= j < |init| && init[j] == inserted[i];
        assert (init + [last])[j] == init[j] && (init + [last])[|init|] == last;
      }
    }
    TotalSnoc(inserted, last);
    TotalSnoc(init, last);
    TotalSnoc(init, c);
    TotalSnoc(init + [last], c);
    assert forall x :: x in inserted + [last] <==> x in inserted || x == last;
    assert forall x :: x in init + [last] + [c] <==> x in init + [c] || x == last;
  }

  lemma {:induction false} TotalSnoc(counts: seq<Count>, c: Count)
    ensures Total(counts + [c]) == Total(counts) + c.members
  {
    assert (counts + [c])[..|counts|] == counts;
  }

  lemma {:induction false} SortSorts(counts: seq<Count>)
    requires DistinctVersions(counts)
    ensures Sorted(SortCounts(counts)) && Rearranged(SortCounts(counts), counts)
  {
    if counts != [] {
      var n := |counts| - 1;
      SortSorts(counts[..n]);
      var sorted := SortCounts(counts[..n]);
      assert counts == counts[..n] + [counts[n]];
      hide Sorted;
      forall i | 0 <= i < |sorted| ensures sorted[i].version != counts[n].version {
        assert sorted[i] in counts[..n];
      }
      InsertSorts(sorted, counts[n]);
      SnocRearranged(Insert(sorted, counts[n]), sorted, counts[..n], counts[n]);
    }
  }

  lemma {:induction false} SnocRearranged(inserted: seq<Count>, sorted: seq<Count>, counts: seq<Count>, c: Count)
    requires Rearranged(inserted, sorted + [c]) && Rearranged(sorted, counts)
    ensures Rearranged(inserted, counts + [c])
  {
    assert (sorted + [c])[..|sorted|] == sorted && (counts + [c])[..|counts|] == counts;
    assert forall x :: x in sorted + [c] <==> x in sorted || x == c;
    assert forall x :: x in counts + [c] <==> x in counts || x == c;
  }

  /** Rearranging changes no tally. */
  lemma {:induction false} TalliesRearranged(a: seq<Count>, b: seq<Count>, policies: seq<Version>)
    requires Tallies(b, policies) && Rearranged(a, b)
    ensures Tallies(a, policies)
  {
    hide Total;
    forall i | 0 <= i < |a| ensures a[i].members == multiset(policies)[a[i].version] > 0 {
      assert a[i] in b;
    }
    forall v | v in policies ensures exists i :: 0 <= i < |a| && a[i].version == v {
      var j :| 0 <= j < |b| && b[j].version == v;
      assert b[j] in a;
    }
  }

  /** The members of a version, if it has any. */
  function MembersOf(counts: seq<Count>, v: Version): nat {
    var k := Find(counts, v);
    if k < |counts| then counts[k].members else 0
  }

  function Derived(versions: seq<Count>): Option<Version>
    requires versions != []
  {
    if |versions| > 1 && versions[1].version.number == versions[0].version.number then None
      else Some(versions[0].version)
  }

  /** What the view of a policy's application means, without saying how it is computed. */
  ghost predicate IsView(view: View, members: seq<Member>, authority: Option<Authority>) {
    var active := ActiveOf(members);
    var policies := PoliciesOf(active);
    && view.activeMembers == |active| && |policies| <= |active|
    && Tallies(view.versions, policies) && Sorted(view.versions)
    && view.currentMembers + view.remediationRequired == view.activeMembers
    && (view.state == Empty <==> active == [])
    && Total(view.versions) + view.unassigned == view.activeMembers && view.unassigned == |active| - |policies|
    && (view.state == Unassigned <==> active != [] && policies == [])
    && (policies == [] ==> view.currentVersion.None? && view.currentMembers == 0 && view.unassigned == |active|)
    && (policies != [] ==> view.versions != [] && Judged(view, authority, policies))
  }

  /** The verdict on assigned members. */
  ghost predicate Judged(view: View, authority: Option<Authority>, policies: seq<Version>)
    requires view.versions != []
  {
    var split := Derived(view.versions).None?;
    var conflict := if authority.Some? then authority.value.conflict else split;
    && view.currentVersion == (if conflict then None
                               else if authority.Some? && authority.value.currentVersion.Some?
                                 then authority.value.currentVersion
                               else Derived(view.versions))
    && view.currentMembers == (if view.currentVersion.Some? then multiset(policies)[view.currentVersion.value] else 0)
    && view.state == if conflict then Conflict else if view.remediationRequired > 0 || |view.versions| > 1 then Mixed
       else Current
  }

  method ResolveConnectorPolicyApplication(members: seq<Member>, authority: Option<Authority>) returns (view: View)
    ensures IsView(view, members, authority)
  {
    hide Tallies, Rearranged, Sorted, ActiveOf, PoliciesOf, Find, Total, MembersOf, SortCounts, DistinctVersions;
    var active := ActiveOf(members);
    var policies := PoliciesOf(active);
    NoMoreThanMembers(active);
    NoTally([]);
    if active == [] {
      return View(Empty, None, 0, 0, 0, 0, []);
    }
    var unassigned := |active| - |policies|;
    if policies == [] {
      return View(Unassigned, None, |active|, 0, |active|, unassigned, []);
    }
    var grouped := Group(policies);
    var versions := SortCounts(grouped);
    SortSorts(grouped);
    TalliesRearranged(versions, grouped, policies);
    SomeTally(versions, policies);
    TotalOf(versions, grouped);
    var newest := Derived(versions);
    var conflict := if authority.Some? then authority.value.conflict else newest.None?;
    var currentVersion := if conflict then None
                          else if authority.Some? && authority.value.currentVersion.Some?
                            then authority.value.currentVersion
                          else newest;
    var currentMembers := if currentVersion.Some? then MembersOf(versions, currentVersion.value) else 0;
    if currentVersion.Some? {
      TallyOf(versions, policies, currentVersion.value);
    }
    var remediation := |active| - currentMembers;
    view := View(if conflict then Conflict else if remediation > 0 || |versions| > 1 then Mixed else Current,
                 currentVersion, |active|, currentMembers, remediation, unassigned, versions);
  }

  lemma {:induction false} NoMoreThanMembers(members: seq<Member>)
    ensures |PoliciesOf(members)| <= |members| && (members == [] ==> PoliciesOf(members) == [])
  {
    if members != [] {
      NoMoreThanMembers(members[..|members| - 1]);
    }
  }

  lemma {:induction false} NoTally(policies: seq<Version>)
    ensures policies == [] ==> Tallies([], policies) && Sorted([]) && Total([]) == 0
  {
  }

  lemma {:induction false} SomeTally(counts: seq<Count>, policies: seq<Version>)
    requires Tallies(counts, policies) && policies != []
    ensures counts != []
  {
    assert policies[0] in policies;
  }

  lemma {:induction false} TotalOf(a: seq<Count>, b: seq<Count>)
    requires Rearranged(a, b)
    ensures Total(a) == Total(b)
  {
  }

  lemma {:induction false} TallyOf(counts: seq<Count>, policies: seq<Version>, v: Version)
    requires Tallies(counts, policies)
    ensures MembersOf(counts, v) == multiset(policies)[v] <= |policies|
  {
    MultiplicityBound(policies, v);
    if Find(counts, v) == |counts| {
      assert v !in policies;
    }
  }

  lemma {:induction false} MultiplicityBound(policies: seq<Version>, v: Version)
    ensures multiset(policies)[v] <= |policies|
  {
    if policies != [] {
      var n := |policies| - 1;
      MultiplicityBound(policies[..n], v);
      assert policies == policies[..n] + [policies[n]];
    }
  }

  /** Two sorted tallies of the same policies, in whatever order they were counted, are the same list. */
  lemma {:induction false} TalliesUnique(a: seq<Count>, b: seq<Count>, p: seq<Version>, q: seq<Version>)
    requires Tallies(a, p) && Tallies(b, q) && Sorted(a) && Sorted(b) && multiset(p) == multiset(q)
    ensures a == b
  {
    forall c | c in a ensures c in b {
      InOther(a, b, p, q, c);
    }
    forall c | c in b ensures c in a {
      InOther(b, a, q, p, c);
    }
    SortedUnique(a, b);
  }

  lemma {:induction false} InOther(a: seq<Count>, b: seq<Count>, p: seq<Version>, q: seq<Version>, c: Count)
    requires Tallies(a, p) && Tallies(b, q) && multiset(p) == multiset(q) && c in a
    ensures c in b
  {
    var i :| 0 <= i < |a| && a[i] == c;
    assert c.version in multiset(q) && c.version in q;
    var j :| 0 <= j < |b| && b[j].version == c.version;
    assert b[j] == c;
  }

  lemma {:induction false} SortedUnique(a: seq<Count>, b: seq<Count>)
    requires Sorted(a) && Sorted(b) && forall c :: c in a <==> c in b
    ensures a == b
    decreases |a|
  {
    assert b != [] ==> b[0] in b;
    if a != [] {
      assert a[0] in a && a[0] in b && b[0] in b && b[0] in a;
      if a[0] != b[0] {
        var i :| 0 <= i < |b| && b[i] == a[0];
        var j :| 0 <= j < |a| && a[j] == b[0];
        AheadTransitive(a[0].version, b[0].version, a[0].version);
      }
      TailsAgree(a, b);
      TailsAgree(b, a);
      SortedUnique(a[1..], b[1..]);
      assert a == [a[0]] + a[1..] && b == [b[0]] + b[1..];
    }
  }

  lemma {:induction false} TailsAgree(a: seq<Count>, b: seq<Count>)
    requires Sorted(a) && a != [] && b != [] && a[0] == b[0] && forall c :: c in a ==> c in b
    ensures forall c :: c in a[1..] ==> c in b[1..]
  {
    forall c | c in a[1..] ensures c in b[1..] {
      var i :| 0 <= i < |a[1..]| && a[1..][i] == c;
      assert Ahead(a[0].version, a[i + 1].version);
      PrecedesTotal(c.version.hash, c.version.hash);
      assert c in a && c != b[0] && b == [b[0]] + b[1..];
    }
  }

  lemma {:induction false} ActiveCounts(members: seq<Member>, v: Version)
    ensures var active := ActiveOf(members);
            && multiset(PoliciesOf(active))[v] == multiset(members)[Member(true, Some(v))]
            && |active| == |PoliciesOf(active)| + multiset(members)[Member(true, None)]
  {
    if members != [] {
      var n := |members| - 1;
      ActiveCounts(members[..n], v);
      assert members == members[..n] + [members[n]];
      ActiveNext(members);
      hide ActiveOf, PoliciesOf;
    }
  }

  lemma {:induction false} ActiveNext(members: seq<Member>)
    requires members != []
    ensures var n := |members| - 1; var m, before := members[n], ActiveOf(members[..n]);
            && ActiveOf(members) == (if m.active then before + [m] else before)
            && (m.active ==> PoliciesOf(before + [m]) == PoliciesOf(before)
                                                          + (if m.policy.Some? then [m.policy.value] else []))
  {
    var n := |members| - 1;
    var m, before := members[n], ActiveOf(members[..n]);
    assert (before + [m])[..|before|] == before;
    assert before + [] == before && PoliciesOf(before) + [] == PoliciesOf(before);
  }

  /** The view does not depend on the order of the members. */
  lemma {:induction false} OrderDoesNotMatter(view: View, members: seq<Member>, view': View, members': seq<Member>,
                                              authority: Option<Authority>)
    requires IsView(view, members, authority) && IsView(view', members', authority)
             && multiset(members) == multiset(members')
    ensures view == view'
  {
    var p, q := PoliciesOf(ActiveOf(members)), PoliciesOf(ActiveOf(members'));
    SamePolicies(members, members');
    hide Tallies, Sorted, ActiveOf, PoliciesOf, Total, Judged;
    TalliesUnique(view.versions, view'.versions, p, q);
    if p != [] {
      SameVerdict(view, view', authority, p, q);
    }
  }

  lemma {:induction false} SameVerdict(view: View, view': View, authority: Option<Authority>, p: seq<Version>,
                                       q: seq<Version>)
    requires view.versions == view'.versions != [] && multiset(p) == multiset(q)
             && view.activeMembers == view'.activeMembers
    requires view.currentMembers + view.remediationRequired == view.activeMembers
    requires view'.currentMembers + view'.remediationRequired == view'.activeMembers
    requires Judged(view, authority, p) && Judged(view', authority, q)
    ensures view.state == view'.state && view.currentVersion == view'.currentVersion
            && view.currentMembers == view'.currentMembers
  {
  }

  lemma {:induction false} SamePolicies(a: seq<Member>, b: seq<Member>)
    requires multiset(a) == multiset(b)
    ensures multiset(PoliciesOf(ActiveOf(a))) == multiset(PoliciesOf(ActiveOf(b)))
    ensures |PoliciesOf(ActiveOf(a))| == |PoliciesOf(ActiveOf(b))| && |ActiveOf(a)| == |ActiveOf(b)|
    ensures PoliciesOf(ActiveOf(a)) == [] <==> PoliciesOf(ActiveOf(b)) == []
  {
    var p, q := PoliciesOf(ActiveOf(a)), PoliciesOf(ActiveOf(b));
    forall v ensures multiset(p)[v] == multiset(q)[v] {
      ActiveCounts(a, v);
      ActiveCounts(b, v);
    }
    assert multiset(p) == multiset(q);
    assert |p| == |multiset(p)| && |q| == |multiset(q)|;
    ActiveCounts(a, Version(0, ""));
    ActiveCounts(b, Version(0, ""));
  }

  lemma {:induction false} AllOneVersion(policies: seq<Version>, v: Version)
    ensures multiset(policies)[v] == |policies| <==> forall u :: u in policies ==> u == v
  {
    if policies != [] {
      var n := |policies| - 1;
      AllOneVersion(policies[..n], v);
      MultiplicityBound(policies[..n], v);
      assert policies == policies[..n] + [policies[n]];
      assert multiset(policies)[v] == multiset(policies[..n])[v] + if policies[n] == v then 1 else 0;
      assert policies[n] in policies && forall u :: u in policies[..n] ==> u in policies;
      if policies[n] == v && forall u :: u in policies[..n] ==> u == v {
        assert forall u :: u in policies ==> u in policies[..n] || u == policies[n];
      }
    }
  }

  lemma {:induction false} PoliciesHold(members: seq<Member>)
    ensures forall v :: v in PoliciesOf(members)
              <==> Member(true, Some(v)) in members || Member(false, Some(v)) in members
    ensures |PoliciesOf(members)| == |members| <==> forall m :: m in members ==> m.policy.Some?
  {
    if members != [] {
      var n := |members| - 1;
      PoliciesHold(members[..n]);
      NoMoreThanMembers(members[..n]);
      assert members == members[..n] + [members[n]];
    }
  }

  /** The state is current exactly when nothing conflicts and every active member has the current version. */
  lemma {:induction false} CurrentIff(view: View, members: seq<Member>, authority: Option<Authority>)
    requires IsView(view, members, authority)
    ensures view.state == Current <==>
            && ActiveOf(members) != [] && !(authority.Some? && authority.value.conflict)
            && view.currentVersion.Some? && forall m :: m in ActiveOf(members) ==> m.policy == view.currentVersion
  {
    var active := ActiveOf(members);
    var policies := PoliciesOf(active);
    if view.currentVersion.Some? {
      var v := view.currentVersion.value;
      AllOnOne(active, v);
      MultiplicityBound(policies, v);
      hide ActiveOf, PoliciesOf, Total, Sorted, Tallies;
      if multiset(policies)[v] == |active| && policies != [] {
        AllOneVersion(policies, v);
        OneVersionOneCount(view.versions, policies, v);
      }
    }
  }

  /** A version counts every member exactly when every member has it. */
  lemma {:induction false} AllOnOne(members: seq<Member>, v: Version)
    ensures multiset(PoliciesOf(members))[v] == |members| <==> forall m :: m in members ==> m.policy == Some(v)
    ensures |PoliciesOf(members)| <= |members|
  {
    var policies := PoliciesOf(members);
    PoliciesHold(members);
    AllOneVersion(policies, v);
    MultiplicityBound(policies, v);
    NoMoreThanMembers(members);
    hide PoliciesOf;
    assert forall m :: m in members && m.policy.Some? ==> m == Member(true, m.policy) || m == Member(false, m.policy);
    assert forall m :: m in members && m.policy.Some? ==> m.policy.value in policies;
  }

  lemma {:induction false} OneVersionOneCount(counts: seq<Count>, policies: seq<Version>, v: Version)
    requires Tallies(counts, policies) && Sorted(counts) && forall u :: u in policies ==> u == v
    ensures |counts| <= 1
  {
    PrecedesTotal(v.hash, v.hash);
    forall i | 0 <= i < |counts| ensures counts[i].version == v {
      assert counts[i].version in multiset(policies) && counts[i].version in policies;
    }
    assert |counts| > 1 ==> Ahead(counts[0].version, counts[1].version);
  }

  /** An active member was assigned this version. */
  ghost predicate Held(members: seq<Member>, v: Version) {
    Member(true, Some(v)) in members
  }

  /** No active member was assigned a version of as high a number. */
  ghost predicate Newest(members: seq<Member>, v: Version) {
    Held(members, v) && forall w :: Held(members, w) && w != v ==> w.number < v.number
  }

  /** Two active members hold different versions of the highest number. */
  ghost predicate Split(members: seq<Member>) {
    exists v, w :: Held(members, v) && Held(members, w) && v != w && v.number == w.number
                   && forall u :: Held(members, u) ==> u.number <= v.number
  }

  lemma {:induction false} ActiveHold(members: seq<Member>)
    ensures forall m :: m in ActiveOf(members) <==> m.active && m in members
  {
    if members != [] {
      var n := |members| - 1;
      ActiveHold(members[..n]);
      assert members == members[..n] + [members[n]];
    }
  }

  lemma {:induction false} AssignedHold(members: seq<Member>, v: Version)
    ensures v in PoliciesOf(ActiveOf(members)) <==> Held(members, v)
  {
    PoliciesHold(ActiveOf(members));
    ActiveHold(members);
  }

  /** What a view tells of its members, whatever their order: how many hold each version and how many none, the newest
      version or the split between two, and the state. */
  lemma {:induction false} ViewTells(view: View, members: seq<Member>, authority: Option<Authority>)
    requires IsView(view, members, authority)
    ensures view.state == Empty <==> forall m :: m in members ==> !m.active
    ensures view.state == Unassigned <==> view.state != Empty && forall v :: !Held(members, v)
    ensures view.unassigned == multiset(members)[Member(true, None)]
    ensures forall v :: Held(members, v) <==> exists c :: c in view.versions && c.version == v
    ensures forall c :: c in view.versions ==> c.members == multiset(members)[Member(true, Some(c.version))]
    ensures view.activeMembers == Total(view.versions) + view.unassigned
    ensures view.currentMembers
            == if view.currentVersion.Some? then multiset(members)[Member(true, view.currentVersion)] else 0
    ensures view.state == Conflict
            <==> (exists v :: Held(members, v)) && if authority.Some? then authority.value.conflict else Split(members)
    ensures view.state in {Empty, Unassigned, Conflict} ==> view.currentVersion.None?
    ensures view.state in {Current, Mixed} && authority.Some? && authority.value.currentVersion.Some?
            ==> view.currentVersion == authority.value.currentVersion
    ensures view.state in {Current, Mixed} && !(authority.Some? && authority.value.currentVersion.Some?)
            ==> forall v :: view.currentVersion == Some(v) <==> Newest(members, v)
    ensures view.state == Current
            ==> view.currentVersion.Some? && forall m :: m in members && m.active ==> m.policy == view.currentVersion
    ensures view.state == Mixed
            ==> (exists v :: Held(members, v)) && exists m :: m in members && m.active
                                                    && m.policy != view.currentVersion
  {
    hide *;
    ViewCounts(view, members, authority);
    ViewJudged(view, members, authority);
  }

  lemma {:induction false} ViewCounts(view: View, members: seq<Member>, authority: Option<Authority>)
    requires IsView(view, members, authority)
    ensures view.state == Empty <==> forall m :: m in members ==> !m.active
    ensures view.state == Unassigned <==> view.state != Empty && forall v :: !Held(members, v)
    ensures view.unassigned == multiset(members)[Member(true, None)]
    ensures forall v :: Held(members, v) <==> exists c :: c in view.versions && c.version == v
    ensures forall c :: c in view.versions ==> c.members == multiset(members)[Member(true, Some(c.version))]
    ensures view.activeMembers == Total(view.versions) + view.unassigned
  {
    TallyTells(view, members);
    ActiveHold(members);
    hide ActiveOf, PoliciesOf, Tallies, Sorted, Total, Judged, Held;
  }

  lemma {:induction false} ViewJudged(view: View, members: seq<Member>, authority: Option<Authority>)
    requires IsView(view, members, authority)
    ensures view.currentMembers
            == if view.currentVersion.Some? then multiset(members)[Member(true, view.currentVersion)] else 0
    ensures view.state == Conflict
            <==> (exists v :: Held(members, v)) && if authority.Some? then authority.value.conflict else Split(members)
    ensures view.state in {Empty, Unassigned, Conflict} ==> view.currentVersion.None?
    ensures view.state in {Current, Mixed} && authority.Some? && authority.value.currentVersion.Some?
            ==> view.currentVersion == authority.value.currentVersion
    ensures view.state in {Current, Mixed} && !(authority.Some? && authority.value.currentVersion.Some?)
            ==> forall v :: view.currentVersion == Some(v) <==> Newest(members, v)
    ensures view.state == Current
            ==> view.currentVersion.Some? && forall m :: m in members && m.active ==> m.policy == view.currentVersion
    ensures view.state == Mixed
            ==> (exists v :: Held(members, v)) && exists m :: m in members && m.active
                                                    && m.policy != view.currentVersion
  {
    var policies := PoliciesOf(ActiveOf(members));
    TallyTells(view, members);
    ActiveHold(members);
    CurrentIff(view, members, authority);
    if policies != [] {
      DerivedTells(view.versions, members);
    }
    if view.currentVersion.Some? {
      ActiveCounts(members, view.currentVersion.value);
    }
    hide ActiveOf, PoliciesOf, Tallies, Sorted, Total, Newest, Split, Derived, Held;
  }

  lemma {:induction false} TallyTells(view: View, members: seq<Member>)
    requires Tallies(view.versions, PoliciesOf(ActiveOf(members)))
    ensures forall v :: Held(members, v) <==> exists c :: c in view.versions && c.version == v
    ensures forall c :: c in view.versions ==> c.members == multiset(members)[Member(true, Some(c.version))]
    ensures PoliciesOf(ActiveOf(members)) != [] <==> exists v :: Held(members, v)
    ensures ActiveOf(members) != [] <==> exists m :: m in members && m.active
    ensures |ActiveOf(members)| - |PoliciesOf(ActiveOf(members))| == multiset(members)[Member(true, None)]
  {
    var policies := PoliciesOf(ActiveOf(members));
    ActiveHold(members);
    forall v ensures v in policies <==> Held(members, v) {
      AssignedHold(members, v);
    }
    forall v ensures multiset(policies)[v] == multiset(members)[Member(true, Some(v))] {
      ActiveCounts(members, v);
    }
    hide ActiveOf, PoliciesOf, Total, Held;
    ListedTally(view.versions, policies);
    assert policies != [] ==> policies[0] in policies;
    assert ActiveOf(members) != [] ==> ActiveOf(members)[0] in ActiveOf(members);
    ActiveCounts(members, Version(0, ""));
  }

  lemma {:induction false} ListedTally(counts: seq<Count>, policies: seq<Version>)
    requires Tallies(counts, policies)
    ensures forall v :: v in policies <==> exists c :: c in counts && c.version == v
    ensures forall c :: c in counts ==> c.members == multiset(policies)[c.version]
  {
  }

  /** The first of the sorted versions is the newest one, unless the second is as new. */
  lemma {:induction false} DerivedTells(versions: seq<Count>, members: seq<Member>)
    requires versions != [] && Sorted(versions)
    requires forall v :: Held(members, v) <==> exists c :: c in versions && c.version == v
    ensures Derived(versions).None? <==> Split(members)
    ensures forall v :: Derived(versions) == Some(v) <==> Newest(members, v)
  {
    var first := versions[0].version;
    forall w | Held(members, w) && w != first ensures w.number <= first.number
                                                      && (Derived(versions).Some? ==> w.number < first.number) {
      var c :| c in versions && c.version == w;
      var i :| 0 <= i < |versions| && versions[i] == c;
      assert Ahead(first, w);
      if i > 1 {
        assert Ahead(first, versions[1].version) && Ahead(versions[1].version, w);
      }
    }
    assert versions[0] in versions && Held(members, first);
    if Derived(versions).None? {
      assert versions[1] in versions && Held(members, versions[1].version);
      assert Ahead(first, versions[1].version);
      PrecedesTotal(first.hash, first.hash);
    }
  }

  datatype Decision = Allow | ApprovalRequired | Deny

  function Rank(d: Decision): nat {
    match d case Allow => 0 case ApprovalRequired => 1 case Deny => 2
  }

  function Strictest(a: Decision, b: Decision): Decision {
    if Rank(b) > Rank(a) then b else a
  }

  /** The organisation's policy as far as one connector is concerned. */
  datatype Organization = Organization(allowed: Option<set<string>>, denied: set<string>, tools: map<string, Decision>)

  /** A connector: its own policies, the definition hashes they were made on, and the tools last observed, if any
      were. */
  datatype Connector = Connector(id: string, enabled: bool, productOwned: bool, configured: map<string, Decision>,
                                 reviewed: map<string, string>, observed: Option<map<string, string>>)

  predicate OrganizationAllows(o: Option<Organization>, id: string) {
    o.Some? ==> id !in o.value.denied && (o.value.allowed.Some? ==> id in o.value.allowed.value)
  }

  predicate AccessAllowed(o: Option<Organization>, c: Connector) {
    OrganizationAllows(o, c.id) && c.enabled
  }

  datatype ReviewState = ProductOwned | Reviewed | AwaitingReview | NotChecked | Removed

  function ReviewOf(c: Connector, name: string): ReviewState {
    if c.productOwned then ProductOwned
    else if c.observed.None? then NotChecked
    else if name !in c.observed.value then Removed
    else if name in c.reviewed && c.reviewed[name] == c.observed.value[name] && name in c.configured then Reviewed
    else AwaitingReview
  }

  /** A tool nobody configured is denied. */
  function ConfiguredDecision(c: Connector, name: string): Decision {
    if name in c.configured then c.configured[name] else Deny
  }

  /** A tool the organisation does not mention is left to the connector. */
  function OrganizationDecision(o: Option<Organization>, name: string): Option<Decision> {
    if o.Some? && name in o.value.tools then Some(o.value.tools[name]) else None
  }

  function EffectiveDecision(o: Option<Organization>, c: Connector, name: string): Decision {
    var decision := if OrganizationDecision(o, name).Some?
      then Strictest(OrganizationDecision(o, name).value, ConfiguredDecision(c, name))
                    else ConfiguredDecision(c, name);
    if AccessAllowed(o, c) && ReviewOf(c, name) in {ProductOwned, Reviewed} then decision else Deny
  }

  /** The connector may be used: the organisation neither denies it nor allows others alone, and it is enabled. */
  ghost predicate Usable(o: Option<Organization>, c: Connector) {
    && c.enabled
    && (o.Some? ==> c.id !in o.value.denied && (o.value.allowed == None || c.id in o.value.allowed.value))
  }

  /** The tool is the product's own, or its definition is the one that the decisions were made on. */
  ghost predicate Trusted(c: Connector, name: string) {
    c.productOwned || (c.observed.Some? && name in c.observed.value && name in c.reviewed
                       && c.observed.value[name] == c.reviewed[name])
  }

  /** What each decision takes, from the two policies, the access and the review. */
  lemma {:induction false} EffectiveIff(o: Option<Organization>, c: Connector, name: string)
    ensures EffectiveDecision(o, c, name) == Allow
            <==> && Usable(o, c) && Trusted(c, name) && name in c.configured && c.configured[name] == Allow
                 && (o.Some? && name in o.value.tools ==> o.value.tools[name] == Allow)
    ensures EffectiveDecision(o, c, name) == Deny
            <==> || !Usable(o, c) || !Trusted(c, name) || name !in c.configured || c.configured[name] == Deny
                 || (o.Some? && name in o.value.tools && o.value.tools[name] == Deny)
  {
  }

  /** What each review state says of a tool; those of the product are not looked at. */
  lemma {:induction false} ReviewIff(c: Connector, name: string)
    ensures var state := ReviewOf(c, name);
            && (state == ProductOwned <==> c.productOwned)
            && (state == NotChecked <==> !c.productOwned && c.observed == None)
            && (state == Removed <==> !c.productOwned && c.observed.Some? && name !in c.observed.value)
            && (state == Reviewed <==> !c.productOwned && Trusted(c, name) && name in c.configured)
  {
  }

  /** The effective decision is never weaker than either source, and short of a denial it is one of them. */
  lemma {:induction false} NeverWeaker(o: Option<Organization>, c: Connector, name: string)
    ensures var effective, fromOrganization := EffectiveDecision(o, c, name), OrganizationDecision(o, name);
            && Rank(effective) >= Rank(ConfiguredDecision(c, name))
            && (fromOrganization.Some? ==> Rank(effective) >= Rank(fromOrganization.value))
            && (effective != Deny ==> AccessAllowed(o, c) && name in c.configured
                                      && (effective == c.configured[name] || Some(effective) == fromOrganization))
  {
  }

  /** Whether `b` is at least as strict as `a` about a tool; saying nothing is the weakest. */
  predicate NoWeaker(a: Option<Decision>, b: Option<Decision>) {
    a.Some? ==> b.Some? && Rank(a.value) <= Rank(b.value)
  }

  /** Tightening either policy for a tool, or both, never loosens what is effective. */
  lemma {:induction false} EffectiveIsMonotone(o: Option<Organization>, c: Connector, o': Option<Organization>,
                                               c': Connector, name: string)
    requires AccessAllowed(o', c') ==> AccessAllowed(o, c)
    requires c' == c.(configured := c'.configured, id := c'.id, enabled := c'.enabled)
    requires Rank(ConfiguredDecision(c, name)) <= Rank(ConfiguredDecision(c', name))
    requires NoWeaker(OrganizationDecision(o, name), OrganizationDecision(o', name))
    ensures Rank(EffectiveDecision(o, c, name)) <= Rank(EffectiveDecision(o', c', name))
  {
  }

  datatype Counts = Counts(allowed: nat, approvalRequired: nat, denied: nat)

  /** The tools that either policy, a review or the provider mentions. */
  function ToolNames(o: Option<Organization>, c: Connector): set<string> {
    (if o.Some? then o.value.tools.Keys else {}) + c.configured.Keys + c.reviewed.Keys
    + (if c.observed.Some? then c.observed.value.Keys else {})
  }

  predicate IsLeast(names: set<string>, least: string) {
    least in names && forall name :: name in names ==> name == least || Precedes(least, name)
  }

  lemma {:induction false} LeastExists(names: set<string>)
    requires names != {}
    ensures exists least :: IsLeast(names, least)
  {
    var name :| name in names;
    var others := names - {name};
    if others == {} {
      assert names == {name};
      assert IsLeast(names, name);
    } else {
      LeastExists(others);
      var least :| IsLeast(others, least);
      PrecedesTotal(least, name);
      if Precedes(least, name) {
        assert IsLeast(names, least);
      } else {
        forall other | other in others && other != least ensures Precedes(name, other) {
          PrecedesTransitive(name, least, other);
        }
        assert IsLeast(names, name);
      }
    }
  }

  /** The names to list, in order. */
  method ListTools(o: Option<Organization>, c: Connector) returns (names: seq<string>)
    ensures forall i, j :: 0 <= i < j < |names| ==> Precedes(names[i], names[j])
    ensures forall name :: name in names <==> name in ToolNames(o, c)
  {
    hide Precedes, ToolNames;
    names := [];
    var rest := ToolNames(o, c);
    while rest != {}
      invariant forall i, j :: 0 <= i < j < |names| ==> Precedes(names[i], names[j])
      invariant forall name, other :: name in names && other in rest ==> Precedes(name, other)
      invariant forall name :: name in ToolNames(o, c) <==> name in names || name in rest
      decreases |rest|
    {
      LeastExists(rest);
      var least :| IsLeast(rest, least);
      names, rest := names + [least], rest - {least};
    }
  }

  /** The listed tools' decisions and their counts; a tool with any effect is listed. */
  method ResolveTools(o: Option<Organization>, c: Connector)
    returns (names: seq<string>, decisions: seq<Decision>, counts: Counts)
    ensures forall i, j :: 0 <= i < j < |names| ==> Precedes(names[i], names[j])
    ensures forall name :: name in names
              <==> || (o.Some? && name in o.value.tools) || name in c.configured || name in c.reviewed
                   || (c.observed.Some? && name in c.observed.value)
    ensures forall name :: EffectiveDecision(o, c, name) != Deny ==> name in names
    ensures |decisions| == |names| && forall i :: 0 <= i < |names| ==> decisions[i] == EffectiveDecision(o, c, names[i])
    ensures counts
            == Counts(multiset(decisions)[Allow], multiset(decisions)[ApprovalRequired], multiset(decisions)[Deny])
    ensures counts.allowed + counts.approvalRequired + counts.denied == |names|
  {
    names := ListTools(o, c);
    forall name | EffectiveDecision(o, c, name) != Deny ensures name in names {
      if name !in ToolNames(o, c) {
        UnlistedIsDenied(o, c, name);
      }
    }
    assert forall name :: name in ToolNames(o, c)
             <==> || (o.Some? && name in o.value.tools) || name in c.configured || name in c.reviewed
                  || (c.observed.Some? && name in c.observed.value);
    hide EffectiveDecision, ToolNames, Precedes;
    decisions, counts := DecideTools(o, c, names);
  }

  method DecideTools(o: Option<Organization>, c: Connector, names: seq<string>)
    returns (decisions: seq<Decision>, counts: Counts)
    ensures |decisions| == |names| && forall i :: 0 <= i < |names| ==> decisions[i] == EffectiveDecision(o, c, names[i])
    ensures counts
            == Counts(multiset(decisions)[Allow], multiset(decisions)[ApprovalRequired], multiset(decisions)[Deny])
    ensures counts.allowed + counts.approvalRequired + counts.denied == |names|
  {
    hide EffectiveDecision;
    decisions, counts := [], Counts(0, 0, 0);
    for i := 0 to |names|
      invariant |decisions| == i && forall j :: 0 <= j < i ==> decisions[j] == EffectiveDecision(o, c, names[j])
      invariant counts
                == Counts(multiset(decisions)[Allow], multiset(decisions)[ApprovalRequired], multiset(decisions)[Deny])
      invariant counts.allowed + counts.approvalRequired + counts.denied == i
    {
      var d := EffectiveDecision(o, c, names[i]);
      decisions := decisions + [d];
      counts := Counts(counts.allowed + (if d == Allow then 1 else 0),
                       counts.approvalRequired + (if d == ApprovalRequired then 1 else 0),
                       counts.denied + (if d == Deny then 1 else 0));
    }
  }

  lemma {:induction false} UnlistedIsDenied(o: Option<Organization>, c: Connector, name: string)
    requires name !in ToolNames(o, c)
    ensures EffectiveDecision(o, c, name) == Deny
  {
  }
}
