/** Resolving a round's reviews under the three consensus strategies. */
module Consensus {
  import opened Prelude
  import opened Combinations
  import opened SupervisionModels

  datatype Outcome = Outcome(
    approved: bool,
    score: real,
    blockingVetoes: seq<string>,
    nonBlockingObjections: seq<string>,
    revisions: seq<PeerReview>)

  // ----- bindings -----

  /** `bindings.get(name)`, with its position; names are unique in a sound profile. */
  function IndexOf(agents: seq<Binding>, name: string): (n: nat)
    ensures n <= |agents|
    ensures n < |agents| ==> agents[n].name == name
    ensures n == |agents| ==> forall k :: 0 <= k < |agents| ==> agents[k].name != name
  {
    if agents == [] then 0
    else if agents[0].name == name then 0
    else 1 + IndexOf(agents[1..], name)
  }

  predicate IsEnabled(p: Profile, r: PeerReview) {
    var n := IndexOf(p.agents, r.reviewer);
    n < |p.agents| && p.agents[n].enabled
  }

  // ----- the order of reviews -----

  function Codes(s: string): (c: seq<nat>)
    ensures |c| == |s|
  {
    seq(|s|, i requires 0 <= i < |s| => s[i] as nat)
  }

  lemma CodesInjective(s: string, t: string)
    requires Codes(s) == Codes(t)
    ensures s == t
  {
    forall i | 0 <= i < |s| ensures s[i] == t[i] {
      assert Codes(s)[i] == Codes(t)[i];
    }
  }

  predicate StringBefore(s: string, t: string) { LexLess(Codes(s), Codes(t)) }

  /** The sort key `(binding index, reviewer, review_id)`, strictly below. */
  predicate Before(p: Profile, a: PeerReview, b: PeerReview) {
    var m, n := IndexOf(p.agents, a.reviewer), IndexOf(p.agents, b.reviewer);
    m < n || (m == n && (StringBefore(a.reviewer, b.reviewer)
                         || (a.reviewer == b.reviewer && StringBefore(a.reviewId, b.reviewId))))
  }

  lemma StringBeforeTransitive(s: string, t: string, u: string)
    requires StringBefore(s, t) && StringBefore(t, u)
    ensures StringBefore(s, u)
  {
    LexLessTransitive(Codes(s), Codes(t), Codes(u));
  }

  lemma StringBeforeTotal(s: string, t: string)
    ensures StringBefore(s, t) || s == t || StringBefore(t, s)
  {
    LexLessTotal(Codes(s), Codes(t));
    if Codes(s) == Codes(t) { CodesInjective(s, t); }
  }

  lemma StringBeforeIrreflexive(s: string)
    ensures !StringBefore(s, s)
  {
    LexLessIrreflexive(Codes(s));
  }

  lemma BeforeTransitive(p: Profile, a: PeerReview, b: PeerReview, c: PeerReview)
    requires Before(p, a, b) && Before(p, b, c)
    ensures Before(p, a, c)
  {
    if a.reviewer == b.reviewer && b.reviewer == c.reviewer {
      StringBeforeIrreflexive(a.reviewer);
      StringBeforeTransitive(a.reviewId, b.reviewId, c.reviewId);
    } else if StringBefore(a.reviewer, b.reviewer) && StringBefore(b.reviewer, c.reviewer) {
      StringBeforeTransitive(a.reviewer, b.reviewer, c.reviewer);
    }
  }

  lemma BeforeIrreflexive(p: Profile, a: PeerReview)
    ensures !Before(p, a, a)
  {
    StringBeforeIrreflexive(a.reviewer);
    StringBeforeIrreflexive(a.reviewId);
  }

  lemma BeforeTotal(p: Profile, a: PeerReview, b: PeerReview)
    ensures Before(p, a, b) || Before(p, b, a) || (a.reviewer == b.reviewer && a.reviewId == b.reviewId)
  {
    StringBeforeTotal(a.reviewer, b.reviewer);
    StringBeforeTotal(a.reviewId, b.reviewId);
  }

  function InsertReview(p: Profile, r: PeerReview, ordered: seq<PeerReview>): (s: seq<PeerReview>)
    ensures multiset(s) == multiset([r]) + multiset(ordered)
  {
    if ordered == [] then [r]
    else if Before(p, r, ordered[0]) then [r] + ordered
    else
      assert ordered == [ordered[0]] + ordered[1..];
      [ordered[0]] + InsertReview(p, r, ordered[1..])
  }

  /** `_order_reviews`: a stable sort. */
  function Order(p: Profile, reviews: seq<PeerReview>): (s: seq<PeerReview>)
    ensures multiset(s) == multiset(reviews)
  {
    if reviews == [] then []
    else
      var n := |reviews| - 1;
      assert reviews == reviews[..n] + [reviews[n]];
      InsertReview(p, reviews[n], Order(p, reviews[..n]))
  }

  predicate InOrder(p: Profile, s: seq<PeerReview>) {
    forall i, j :: 0 <= i < j < |s| ==> !Before(p, s[j], s[i])
  }

  lemma NotBeforeTransitive(p: Profile, a: PeerReview, b: PeerReview, c: PeerReview)
    requires !Before(p, b, a) && !Before(p, c, b)
    ensures !Before(p, c, a)
  {
    BeforeTotal(p, a, b);
    BeforeTotal(p, b, c);
    if Before(p, c, a) {
      if Before(p, a, b) { BeforeTransitive(p, c, a, b); }
      if Before(p, b, c) { BeforeTransitive(p, b, c, a); }
    }
  }

  lemma {:induction false} InsertInOrder(p: Profile, r: PeerReview, ordered: seq<PeerReview>)
    requires InOrder(p, ordered)
    ensures InOrder(p, InsertReview(p, r, ordered))
  {
    if ordered != [] {
      var s := InsertReview(p, r, ordered);
      if Before(p, r, ordered[0]) {
        forall j | 1 <= j < |s| ensures !Before(p, s[j], s[0]) {
          if Before(p, ordered[0], r) {
            BeforeTransitive(p, r, ordered[0], r);
            BeforeIrreflexive(p, r);
          }
          if j > 1 { NotBeforeTransitive(p, r, ordered[0], s[j]); }
        }
      } else {
        InsertInOrder(p, r, ordered[1..]);
        forall j | 1 <= j < |s| ensures !Before(p, s[j], s[0]) {
          assert s[j] in multiset(InsertReview(p, r, ordered[1..]));
          assert s[j] == r || s[j] in ordered[1..];
        }
      }
    }
  }

  lemma {:induction false} OrderInOrder(p: Profile, reviews: seq<PeerReview>)
    ensures InOrder(p, Order(p, reviews))
  {
    if reviews != [] {
      OrderInOrder(p, reviews[..|reviews| - 1]);
      InsertInOrder(p, reviews[|reviews| - 1], Order(p, reviews[..|reviews| - 1]));
    }
  }

  /** Reviews told apart by reviewer and review id. */
  predicate DistinctKeys(s: seq<PeerReview>) {
    forall i, j :: 0 <= i < j < |s| ==> s[i].reviewer != s[j].reviewer || s[i].reviewId != s[j].reviewId
  }

  predicate StrictlyInOrder(p: Profile, s: seq<PeerReview>) {
    forall i, j :: 0 <= i < j < |s| ==> Before(p, s[i], s[j])
  }

  lemma SameFirst(p: Profile, s: seq<PeerReview>, t: seq<PeerReview>)
    requires StrictlyInOrder(p, s) && StrictlyInOrder(p, t) && multiset(s) == multiset(t)
    requires s != [] && t != []
    ensures s[0] == t[0]
  {
    assert s[0] in multiset(t) && t[0] in multiset(s);
    var a :| 0 <= a < |t| && t[a] == s[0];
    var b :| 0 <= b < |s| && s[b] == t[0];
    if a > 0 && b > 0 {
      assert Before(p, t[0], s[0]) && Before(p, s[0], t[0]);
      BeforeTransitive(p, s[0], t[0], s[0]);
      BeforeIrreflexive(p, s[0]);
    }
  }

  /** Two strictly ordered arrangements of the same reviews are equal. */
  lemma {:induction false} StrictOrderUnique(p: Profile, s: seq<PeerReview>, t: seq<PeerReview>)
    requires StrictlyInOrder(p, s) && StrictlyInOrder(p, t) && multiset(s) == multiset(t)
    ensures s == t
  {
    if s == [] {
      assert |multiset(t)| == 0;
    } else {
      assert s[0] in multiset(t) && |multiset(t)| > 0;
      SameFirst(p, s, t);
      assert s == [s[0]] + s[1..] && t == [t[0]] + t[1..];
      assert multiset(s[1..]) == multiset(s) - multiset([s[0]]);
      assert multiset(t[1..]) == multiset(t) - multiset([t[0]]);
      StrictOrderUnique(p, s[1..], t[1..]);
    }
  }

  lemma DistinctKeysInMultiset(s: seq<PeerReview>, t: seq<PeerReview>)
    requires DistinctKeys(s) && multiset(s) == multiset(t)
    ensures DistinctKeys(t)
  {
    forall i, j | 0 <= i < j < |t| ensures t[i].reviewer != t[j].reviewer || t[i].reviewId != t[j].reviewId {
      if t[i] == t[j] {
        var a, b := TwiceElsewhere(s, t, i, j);
      } else {
        assert t[i] in multiset(s) && t[j] in multiset(s);
        var a :| 0 <= a < |s| && s[a] == t[i];
        var b :| 0 <= b < |s| && s[b] == t[j];
      }
    }
  }

  /** With distinct keys the sorted order does not depend on the arrival order. */
  lemma OrderOfPermutation(p: Profile, s: seq<PeerReview>, t: seq<PeerReview>)
    requires multiset(s) == multiset(t) && DistinctKeys(s)
    ensures Order(p, s) == Order(p, t)
  {
    forall u | u == Order(p, s) || u == Order(p, t) ensures StrictlyInOrder(p, u) {
      OrderInOrder(p, s);
      OrderInOrder(p, t);
      DistinctKeysInMultiset(s, u);
      forall i, j | 0 <= i < j < |u| ensures Before(p, u[i], u[j]) {
        BeforeTotal(p, u[i], u[j]);
      }
    }
    StrictOrderUnique(p, Order(p, s), Order(p, t));
  }

  // ----- resolving -----

  function Enabled(p: Profile, reviews: seq<PeerReview>): seq<PeerReview> {
    Filter(reviews, (r: PeerReview) => IsEnabled(p, r))
  }

  function WithVerdict(reviews: seq<PeerReview>, v: Verdict): seq<PeerReview> {
    Filter(reviews, (r: PeerReview) => r.verdict == v)
  }

  /** One of the reviewer's veto scopes is at stake. */
  predicate ScopeMatches(p: Profile, r: PeerReview, scopes: seq<string>) {
    && IsEnabled(p, r)
    && exists s :: s in scopes && s in p.agents[IndexOf(p.agents, r.reviewer)].vetoScopes
  }

  function VetoesByScope(p: Profile, reviews: seq<PeerReview>, scopes: seq<string>, matching: bool): seq<PeerReview> {
    Filter(reviews, (r: PeerReview) => r.verdict == Veto && (ScopeMatches(p, r, scopes) == matching))
  }

  function Reviewers(reviews: seq<PeerReview>): (s: seq<string>)
    ensures |s| == |reviews|
  {
    seq(|reviews|, i requires 0 <= i < |reviews| => reviews[i].reviewer)
  }

  /** The consensus weight of a review; only enabled reviewers carry one. */
  function WeightOf(p: Profile, r: PeerReview): real {
    if IsEnabled(p, r) then p.agents[IndexOf(p.agents, r.reviewer)].consensusWeight else 0.0
  }

  function Weight(p: Profile, reviews: seq<PeerReview>): real {
    if reviews == [] then 0.0 else WeightOf(p, reviews[0]) + Weight(p, reviews[1..])
  }

  function ResolveRoleBasedVeto(p: Profile, reviews: seq<PeerReview>, scopes: seq<string>): Outcome {
    var blocking := Reviewers(VetoesByScope(p, reviews, scopes, true));
    Outcome(blocking == [], if blocking == [] then 1.0 else 0.0, blocking,
            Reviewers(VetoesByScope(p, reviews, scopes, false)), WithVerdict(reviews, Revise))
  }

  function ResolveUnanimousVeto(reviews: seq<PeerReview>): Outcome {
    var blocking := Reviewers(WithVerdict(reviews, Veto));
    Outcome(blocking == [], if blocking == [] then 1.0 else 0.0, blocking, [], WithVerdict(reviews, Revise))
  }

  function ResolveWeightedMajority(p: Profile, reviews: seq<PeerReview>): Outcome {
    var participating := Weight(p, reviews);
    var approving := Weight(p, WithVerdict(reviews, Approve));
    var score := if participating != 0.0 then approving / participating else 0.0;
    Outcome(score >= 0.5, score, [], Reviewers(WithVerdict(reviews, Veto)), WithVerdict(reviews, Revise))
  }

  /** `ConsensusResolver.resolve`. */
  function Resolve(p: Profile, reviews: seq<PeerReview>, scopes: seq<string>): Outcome {
    var enabled := Enabled(p, Order(p, reviews));
    match p.strategy
    case RoleBasedVeto => ResolveRoleBasedVeto(p, enabled, scopes)
    case UnanimousVeto => ResolveUnanimousVeto(enabled)
    case WeightedMajority => ResolveWeightedMajority(p, enabled)
  }

  // ----- approval, without the order -----

  predicate BlockingVeto(p: Profile, r: PeerReview, scopes: seq<string>) {
    r.verdict == Veto && ScopeMatches(p, r, scopes)
  }

  /** The weight of the approvals among the reviews, or of all of them. */
  function ApprovalWeight(p: Profile, reviews: seq<PeerReview>): real {
    if reviews == [] then 0.0
    else (if reviews[0].verdict == Approve then WeightOf(p, reviews[0]) else 0.0) + ApprovalWeight(p, reviews[1..])
  }

  lemma {:induction false} WeightsConcat(p: Profile, s: seq<PeerReview>, t: seq<PeerReview>)
    ensures Weight(p, s + t) == Weight(p, s) + Weight(p, t)
    ensures ApprovalWeight(p, s + t) == ApprovalWeight(p, s) + ApprovalWeight(p, t)
  {
    if s == [] {
      assert s + t == t;
    } else {
      WeightsConcat(p, s[1..], t);
      assert (s + t)[1..] == s[1..] + t;
    }
  }

  /** The sequence without its n-th element. */
  function CutOut(t: seq<PeerReview>, n: nat): (rest: seq<PeerReview>)
    requires n < |t|
    ensures |rest| == |t| - 1 && multiset(t) == multiset([t[n]]) + multiset(rest)
  {
    assert t == t[..n] + ([t[n]] + t[n + 1..]);
    t[..n] + t[n + 1..]
  }

  lemma SameRest(r: PeerReview, s: seq<PeerReview>, t: seq<PeerReview>)
    requires multiset([r]) + multiset(s) == multiset([r]) + multiset(t)
    ensures multiset(s) == multiset(t)
  {
    assert multiset(s) == multiset([r]) + multiset(s) - multiset([r]);
    assert multiset(t) == multiset([r]) + multiset(t) - multiset([r]);
  }

  /** The first of `s` is somewhere in a permutation of `s`; without it the two still permute. */
  lemma CutBoth(s: seq<PeerReview>, t: seq<PeerReview>) returns (n: nat)
    requires s != [] && multiset(s) == multiset(t)
    ensures n < |t| && t[n] == s[0] && multiset(CutOut(s, 0)) == multiset(CutOut(t, n))
  {
    assert s[0] in multiset(t);
    n :| n < |t| && t[n] == s[0];
    SameRest(s[0], CutOut(s, 0), CutOut(t, n));
  }

  lemma WeightsCut(p: Profile, t: seq<PeerReview>, n: nat)
    requires n < |t|
    ensures Weight(p, t) == Weight(p, [t[n]]) + Weight(p, CutOut(t, n))
    ensures ApprovalWeight(p, t) == ApprovalWeight(p, [t[n]]) + ApprovalWeight(p, CutOut(t, n))
  {
    assert t == t[..n] + ([t[n]] + t[n + 1..]);
    WeightsConcat(p, t[..n], [t[n]] + t[n + 1..]);
    WeightsConcat(p, [t[n]], t[n + 1..]);
    WeightsConcat(p, t[..n], t[n + 1..]);
  }

  lemma {:induction false} WeightsPermute(p: Profile, s: seq<PeerReview>, t: seq<PeerReview>)
    requires multiset(s) == multiset(t)
    ensures Weight(p, s) == Weight(p, t)
    ensures ApprovalWeight(p, s) == ApprovalWeight(p, t)
  {
    if s == [] {
      assert |multiset(t)| == 0;
    } else {
      var n := CutBoth(s, t);
      WeightsPermute(p, CutOut(s, 0), CutOut(t, n));
      WeightsCut(p, s, 0);
      WeightsCut(p, t, n);
    }
  }

  /** Dropping disabled reviewers and then all but the approvals changes no weight. */
  lemma {:induction false} FilteredWeights(p: Profile, reviews: seq<PeerReview>)
    ensures Weight(p, Enabled(p, reviews)) == Weight(p, reviews)
    ensures Weight(p, WithVerdict(Enabled(p, reviews), Approve)) == ApprovalWeight(p, reviews)
  {
    if reviews != [] {
      var first, rest := reviews[0], Enabled(p, reviews[1..]);
      FilteredWeights(p, reviews[1..]);
      if IsEnabled(p, first) {
        assert Enabled(p, reviews) == [first] + rest;
        assert ([first] + rest)[1..] == rest;
        FilterCons(first, rest, (r: PeerReview) => r.verdict == Approve);
        if first.verdict == Approve {
          assert WithVerdict([first] + rest, Approve) == [first] + WithVerdict(rest, Approve);
          assert ([first] + WithVerdict(rest, Approve))[1..] == WithVerdict(rest, Approve);
        } else {
          assert WithVerdict([first] + rest, Approve) == WithVerdict(rest, Approve);
        }
      } else {
        assert Enabled(p, reviews) == rest;
      }
    }
  }

  lemma {:induction false} WeightBounds(p: Profile, reviews: seq<PeerReview>)
    requires SoundProfile(p)
    ensures 0.0 <= ApprovalWeight(p, reviews) <= Weight(p, reviews)
  {
    if reviews != [] { WeightBounds(p, reviews[1..]); }
  }

  /** Approval in terms of the reviews as they came: a blocking veto, any enabled veto, or
      at least half of a positive participating weight. */
  predicate ApprovedBy(p: Profile, reviews: seq<PeerReview>, scopes: seq<string>) {
    match p.strategy
    case RoleBasedVeto => forall r :: r in reviews ==> !BlockingVeto(p, r, scopes)
    case UnanimousVeto => forall r :: r in reviews && IsEnabled(p, r) ==> r.verdict != Veto
    case WeightedMajority => Weight(p, reviews) > 0.0 && 2.0 * ApprovalWeight(p, reviews) >= Weight(p, reviews)
  }

  lemma SameSign(x: real, b: real)
    requires b > 0.0
    ensures x >= 0.0 <==> x * b >= 0.0
  {
  }

  lemma HalfIff(a: real, b: real)
    requires 0.0 <= a <= b && b > 0.0
    ensures a / b >= 0.5 <==> 2.0 * a >= b
    ensures 0.0 <= a / b <= 1.0
  {
    var q := a / b;
    assert q * b == a;
    assert (q - 0.5) * b == a - 0.5 * b;
    assert (1.0 - q) * b == b - a;
    SameSign(q - 0.5, b);
    SameSign(q, b);
    SameSign(1.0 - q, b);
  }

  /** Which reviews survive ordering and the enabled filter. */
  lemma EnabledMembers(p: Profile, reviews: seq<PeerReview>, r: PeerReview)
    ensures r in Enabled(p, Order(p, reviews)) <==> r in reviews && IsEnabled(p, r)
  {
    FilterMembers(Order(p, reviews), (q: PeerReview) => IsEnabled(p, q), r);
    assert r in reviews <==> r in multiset(reviews);
    assert r in Order(p, reviews) <==> r in multiset(Order(p, reviews));
  }

  lemma EmptyIff(s: seq<PeerReview>)
    ensures s == [] <==> forall r :: r !in s
  {
    if s != [] { assert s[0] in s; }
  }

  lemma NoBlockingIff(p: Profile, reviews: seq<PeerReview>, scopes: seq<string>)
    ensures VetoesByScope(p, Enabled(p, Order(p, reviews)), scopes, true) == []
            <==> forall r :: r in reviews ==> !BlockingVeto(p, r, scopes)
  {
    var enabled := Enabled(p, Order(p, reviews));
    EmptyIff(VetoesByScope(p, enabled, scopes, true));
    forall r ensures r in VetoesByScope(p, enabled, scopes, true) <==> r in reviews && BlockingVeto(p, r, scopes) {
      FilterMembers(enabled, (q: PeerReview) => q.verdict == Veto && (ScopeMatches(p, q, scopes) == true), r);
      EnabledMembers(p, reviews, r);
    }
  }

  lemma NoVetoIff(p: Profile, reviews: seq<PeerReview>)
    ensures WithVerdict(Enabled(p, Order(p, reviews)), Veto) == []
            <==> forall r :: r in reviews && IsEnabled(p, r) ==> r.verdict != Veto
  {
    var enabled := Enabled(p, Order(p, reviews));
    EmptyIff(WithVerdict(enabled, Veto));
    forall r ensures r in WithVerdict(enabled, Veto) <==> r in reviews && IsEnabled(p, r) && r.verdict == Veto {
      FilterMembers(enabled, (q: PeerReview) => q.verdict == Veto, r);
      EnabledMembers(p, reviews, r);
    }
  }

  lemma WeightedScore(p: Profile, reviews: seq<PeerReview>)
    requires SoundProfile(p)
    ensures var o := ResolveWeightedMajority(p, Enabled(p, Order(p, reviews)));
            && (o.approved <==> Weight(p, reviews) > 0.0 && 2.0 * ApprovalWeight(p, reviews) >= Weight(p, reviews))
            && 0.0 <= o.score <= 1.0
  {
    FilteredWeights(p, Order(p, reviews));
    WeightsPermute(p, Order(p, reviews), reviews);
    WeightBounds(p, reviews);
    if Weight(p, reviews) > 0.0 { HalfIff(ApprovalWeight(p, reviews), Weight(p, reviews)); }
  }

  lemma ApprovedIff(p: Profile, reviews: seq<PeerReview>, scopes: seq<string>)
    requires SoundProfile(p)
    ensures Resolve(p, reviews, scopes).approved <==> ApprovedBy(p, reviews, scopes)
    ensures 0.0 <= Resolve(p, reviews, scopes).score <= 1.0
  {
    match p.strategy {
      case RoleBasedVeto =>
        NoBlockingIff(p, reviews, scopes);
        assert |Reviewers(VetoesByScope(p, Enabled(p, Order(p, reviews)), scopes, true))|
            == |VetoesByScope(p, Enabled(p, Order(p, reviews)), scopes, true)|;
      case UnanimousVeto =>
        NoVetoIff(p, reviews);
        assert |Reviewers(WithVerdict(Enabled(p, Order(p, reviews)), Veto))|
            == |WithVerdict(Enabled(p, Order(p, reviews)), Veto)|;
      case WeightedMajority =>
        WeightedScore(p, reviews);
    }
  }

  // ----- what bindings, lists and scores mean -----

  /** The agents of a profile have different names. */
  predicate DistinctNames(p: Profile) {
    forall a, b :: 0 <= a < b < |p.agents| ==> p.agents[a].name != p.agents[b].name
  }

  /** A reviewer counts exactly if its binding is enabled, with the binding's weight and scopes. */
  lemma BindingDecides(p: Profile, r: PeerReview, scopes: seq<string>, n: nat)
    requires DistinctNames(p) && n < |p.agents| && p.agents[n].name == r.reviewer
    ensures IsEnabled(p, r) <==> p.agents[n].enabled
    ensures WeightOf(p, r) == if p.agents[n].enabled then p.agents[n].consensusWeight else 0.0
    ensures ScopeMatches(p, r, scopes) <==>
              p.agents[n].enabled && exists s :: s in scopes && s in p.agents[n].vetoScopes
  {
    assert IndexOf(p.agents, r.reviewer) == n;
  }

  /** A reviewer without a binding does not count. */
  lemma UnboundReviewer(p: Profile, r: PeerReview, scopes: seq<string>)
    requires forall n :: 0 <= n < |p.agents| ==> p.agents[n].name != r.reviewer
    ensures !IsEnabled(p, r) && WeightOf(p, r) == 0.0 && !ScopeMatches(p, r, scopes)
  {
  }

  lemma InReviewers(reviews: seq<PeerReview>, name: string)
    ensures name in Reviewers(reviews) <==> exists r :: r in reviews && r.reviewer == name
  {
    if name in Reviewers(reviews) {
      var i :| 0 <= i < |reviews| && Reviewers(reviews)[i] == name;
      assert reviews[i] in reviews;
    }
    if r :| r in reviews && r.reviewer == name {
      var i :| 0 <= i < |reviews| && reviews[i] == r;
      assert Reviewers(reviews)[i] == name;
    }
  }

  lemma EnabledWithVerdict(p: Profile, reviews: seq<PeerReview>, v: Verdict, r: PeerReview)
    ensures r in WithVerdict(Enabled(p, Order(p, reviews)), v) <==> r in reviews && IsEnabled(p, r) && r.verdict == v
  {
    FilterMembers(Enabled(p, Order(p, reviews)), (q: PeerReview) => q.verdict == v, r);
    EnabledMembers(p, reviews, r);
  }

  lemma ScopedVetoes(p: Profile, reviews: seq<PeerReview>, scopes: seq<string>, matching: bool, r: PeerReview)
    ensures r in VetoesByScope(p, Enabled(p, Order(p, reviews)), scopes, matching)
            <==> r in reviews && IsEnabled(p, r) && r.verdict == Veto && ScopeMatches(p, r, scopes) == matching
  {
    FilterMembers(Enabled(p, Order(p, reviews)),
                  (q: PeerReview) => q.verdict == Veto && (ScopeMatches(p, q, scopes) == matching), r);
    EnabledMembers(p, reviews, r);
  }

  /** The revisions of an outcome are what enabled reviewers ask for. */
  lemma RevisionsAre(p: Profile, reviews: seq<PeerReview>, scopes: seq<string>, r: PeerReview)
    ensures r in Resolve(p, reviews, scopes).revisions <==> r in reviews && IsEnabled(p, r) && r.verdict == Revise
  {
    EnabledWithVerdict(p, reviews, Revise, r);
  }

  /** A name is listed as blocking exactly if its veto blocks: under role-based veto one that matches a
      scope, under unanimous veto any enabled one, by majority none. */
  lemma BlockersAre(p: Profile, reviews: seq<PeerReview>, scopes: seq<string>, name: string)
    ensures name in Resolve(p, reviews, scopes).blockingVetoes <==>
              p.strategy != WeightedMajority
              && exists r :: r in reviews && r.reviewer == name && IsEnabled(p, r) && r.verdict == Veto
                             && (p.strategy == RoleBasedVeto ==> ScopeMatches(p, r, scopes))
  {
    var enabled := Enabled(p, Order(p, reviews));
    InReviewers(VetoesByScope(p, enabled, scopes, true), name);
    InReviewers(WithVerdict(enabled, Veto), name);
    forall r
      ensures r in VetoesByScope(p, enabled, scopes, true) <==>
                r in reviews && IsEnabled(p, r) && r.verdict == Veto && ScopeMatches(p, r, scopes)
      ensures r in WithVerdict(enabled, Veto) <==> r in reviews && IsEnabled(p, r) && r.verdict == Veto
    {
      ScopedVetoes(p, reviews, scopes, true, r);
      EnabledWithVerdict(p, reviews, Veto, r);
    }
  }

  /** It is listed as a non-blocking objection exactly if its veto counts without blocking. */
  lemma ObjectorsAre(p: Profile, reviews: seq<PeerReview>, scopes: seq<string>, name: string)
    ensures name in Resolve(p, reviews, scopes).nonBlockingObjections <==>
              p.strategy != UnanimousVeto
              && exists r :: r in reviews && r.reviewer == name && IsEnabled(p, r) && r.verdict == Veto
                             && (p.strategy == RoleBasedVeto ==> !ScopeMatches(p, r, scopes))
  {
    var enabled := Enabled(p, Order(p, reviews));
    InReviewers(VetoesByScope(p, enabled, scopes, false), name);
    InReviewers(WithVerdict(enabled, Veto), name);
    forall r
      ensures r in VetoesByScope(p, enabled, scopes, false) <==>
                r in reviews && IsEnabled(p, r) && r.verdict == Veto && !ScopeMatches(p, r, scopes)
      ensures r in WithVerdict(enabled, Veto) <==> r in reviews && IsEnabled(p, r) && r.verdict == Veto
    {
      ScopedVetoes(p, reviews, scopes, false, r);
      EnabledWithVerdict(p, reviews, Veto, r);
    }
  }

  /** Under either veto the score is one for an approval and zero otherwise. */
  lemma VetoScoreIs(p: Profile, reviews: seq<PeerReview>, scopes: seq<string>)
    requires SoundProfile(p) && p.strategy != WeightedMajority
    ensures Resolve(p, reviews, scopes).score == if ApprovedBy(p, reviews, scopes) then 1.0 else 0.0
  {
    ApprovedIff(p, reviews, scopes);
  }

  /** By majority the score is the approving part of the weight, or zero without weight. */
  lemma MajorityScoreIs(p: Profile, reviews: seq<PeerReview>, scopes: seq<string>)
    requires p.strategy == WeightedMajority
    ensures Weight(p, reviews) != 0.0 ==>
              Resolve(p, reviews, scopes).score == ApprovalWeight(p, reviews) / Weight(p, reviews)
    ensures Weight(p, reviews) == 0.0 ==> Resolve(p, reviews, scopes).score == 0.0
  {
    FilteredWeights(p, Order(p, reviews));
    WeightsPermute(p, Order(p, reviews), reviews);
  }

  /** Reviews are considered in the profile's order of agents, one agent's in the order of their ids. */
  lemma ConsideredInOrder(p: Profile, reviews: seq<PeerReview>, i: nat, j: nat)
    requires i < j < |reviews|
    ensures |Order(p, reviews)| == |reviews|
    ensures var o := Order(p, reviews);
            && IndexOf(p.agents, o[i].reviewer) <= IndexOf(p.agents, o[j].reviewer)
            && (o[i].reviewer == o[j].reviewer ==> !StringBefore(o[j].reviewId, o[i].reviewId))
  {
    assert |multiset(Order(p, reviews))| == |multiset(reviews)|;
    OrderInOrder(p, reviews);
  }

  // ----- the promised properties -----

  lemma ApprovedByPermutes(p: Profile, s: seq<PeerReview>, t: seq<PeerReview>, scopes: seq<string>)
    requires multiset(s) == multiset(t)
    ensures ApprovedBy(p, s, scopes) <==> ApprovedBy(p, t, scopes)
  {
    assert forall r :: r in s <==> r in multiset(s);
    assert forall r :: r in t <==> r in multiset(t);
    WeightsPermute(p, s, t);
  }

  /** Approval depends on which reviews came, not on their order; with reviews told apart by
      reviewer and id the whole outcome does. */
  lemma OrderIndependence(p: Profile, s: seq<PeerReview>, t: seq<PeerReview>, scopes: seq<string>)
    requires SoundProfile(p) && multiset(s) == multiset(t)
    ensures Resolve(p, s, scopes).approved == Resolve(p, t, scopes).approved
    ensures DistinctKeys(s) ==> Resolve(p, s, scopes) == Resolve(p, t, scopes)
  {
    ApprovedIff(p, s, scopes);
    ApprovedIff(p, t, scopes);
    ApprovedByPermutes(p, s, t, scopes);
    if DistinctKeys(s) { OrderOfPermutation(p, s, t); }
  }

  lemma {:induction false} EnabledInsert(p: Profile, r: PeerReview, ordered: seq<PeerReview>)
    requires InOrder(p, ordered)
    ensures Enabled(p, InsertReview(p, r, ordered))
            == if IsEnabled(p, r) then InsertReview(p, r, Enabled(p, ordered)) else Enabled(p, ordered)
  {
    if ordered == [] {
      FilterCons(r, [], (q: PeerReview) => IsEnabled(p, q));
      assert [r] + [] == [r];
    } else if Before(p, r, ordered[0]) {
      FilterCons(r, ordered, (q: PeerReview) => IsEnabled(p, q));
      BeforeAllEnabled(p, r, ordered);
    } else {
      var first, rest := ordered[0], ordered[1..];
      EnabledInsert(p, r, rest);
      FilterCons(first, InsertReview(p, r, rest), (q: PeerReview) => IsEnabled(p, q));
      if IsEnabled(p, first) {
        assert Enabled(p, ordered) == [first] + Enabled(p, rest);
        assert ([first] + Enabled(p, rest))[1..] == Enabled(p, rest);
      } else {
        assert Enabled(p, ordered) == Enabled(p, rest);
      }
    }
  }

  lemma BeforeAllEnabled(p: Profile, r: PeerReview, ordered: seq<PeerReview>)
    requires InOrder(p, ordered) && ordered != [] && Before(p, r, ordered[0])
    ensures InsertReview(p, r, Enabled(p, ordered)) == [r] + Enabled(p, ordered)
  {
    var kept := Enabled(p, ordered);
    if kept != [] {
      FilterMembers(ordered, (q: PeerReview) => IsEnabled(p, q), kept[0]);
      var n :| 0 <= n < |ordered| && ordered[n] == kept[0];
      if n > 0 && !Before(p, r, kept[0]) { NotBeforeTransitive(p, ordered[0], kept[0], r); }
    }
  }

  lemma OrderSnoc(p: Profile, front: seq<PeerReview>, last: PeerReview)
    ensures Order(p, front + [last]) == InsertReview(p, last, Order(p, front))
  {
    var s := front + [last];
    assert s[..|s| - 1] == front && s[|s| - 1] == last;
  }

  lemma EnabledSnoc(p: Profile, front: seq<PeerReview>, last: PeerReview)
    ensures Enabled(p, front + [last])
            == if IsEnabled(p, last) then Enabled(p, front) + [last] else Enabled(p, front)
  {
    FilterSnoc(front, last, (q: PeerReview) => IsEnabled(p, q));
    assert Enabled(p, front) + [] == Enabled(p, front);
  }

  lemma EnabledOrderStep(p: Profile, front: seq<PeerReview>, last: PeerReview)
    requires Enabled(p, Order(p, front)) == Order(p, Enabled(p, front))
    ensures Enabled(p, Order(p, front + [last])) == Order(p, Enabled(p, front + [last]))
  {
    OrderSnoc(p, front, last);
    OrderInOrder(p, front);
    EnabledInsert(p, last, Order(p, front));
    EnabledSnoc(p, front, last);
    OrderSnoc(p, Enabled(p, front), last);
  }

  lemma EnabledOrderEmpty(p: Profile)
    ensures Enabled(p, Order(p, [])) == Order(p, Enabled(p, []))
  {
  }

  lemma {:induction false} EnabledOrder(p: Profile, reviews: seq<PeerReview>)
    ensures Enabled(p, Order(p, reviews)) == Order(p, Enabled(p, reviews))
  {
    if reviews == [] {
      EnabledOrderEmpty(p);
    } else {
      var front, last := reviews[..|reviews| - 1], reviews[|reviews| - 1];
      var whole := front + [last];
      assert reviews == whole;
      EnabledOrder(p, front);
      EnabledOrderStep(p, front, last);
    }
  }

  /** Dropping disabled reviewers before ordering and after it comes to the same. */
  lemma EnabledTwice(p: Profile, reviews: seq<PeerReview>)
    ensures Enabled(p, Order(p, Enabled(p, reviews))) == Enabled(p, Order(p, reviews))
  {
    var kept := Enabled(p, reviews);
    forall r | r in kept ensures IsEnabled(p, r) {
      FilterMembers(reviews, (q: PeerReview) => IsEnabled(p, q), r);
    }
    FilterAll(kept, (q: PeerReview) => IsEnabled(p, q));
    EnabledOrder(p, reviews);
    EnabledOrder(p, kept);
  }

  /** Disabled and unknown reviewers have no part in any field of the outcome. */
  lemma OnlyEnabledCount(p: Profile, reviews: seq<PeerReview>, scopes: seq<string>)
    ensures Resolve(p, reviews, scopes) == Resolve(p, Enabled(p, reviews), scopes)
  {
    EnabledTwice(p, reviews);
  }

  /** One more APPROVE never revokes an approval, under any strategy. */
  lemma ApproveNeverRevokes(p: Profile, reviews: seq<PeerReview>, extra: PeerReview, scopes: seq<string>)
    requires SoundProfile(p) && extra.verdict == Approve
    requires Resolve(p, reviews, scopes).approved
    ensures Resolve(p, reviews + [extra], scopes).approved
  {
    ApprovedIff(p, reviews, scopes);
    ApprovedIff(p, reviews + [extra], scopes);
    WeightsConcat(p, reviews, [extra]);
    assert [extra][1..] == [];
    WeightBounds(p, [extra]);
    assert ApprovalWeight(p, [extra]) == Weight(p, [extra]);
  }

  /** What unanimous veto approves, role-based veto approves for every decision scope. */
  lemma UnanimousImpliesRoleBased(p: Profile, reviews: seq<PeerReview>, scopes: seq<string>, other: seq<string>)
    requires SoundProfile(p)
    requires Resolve(p.(strategy := UnanimousVeto), reviews, other).approved
    ensures Resolve(p.(strategy := RoleBasedVeto), reviews, scopes).approved
  {
    var u, v := p.(strategy := UnanimousVeto), p.(strategy := RoleBasedVeto);
    ApprovedIff(u, reviews, other);
    ApprovedIff(v, reviews, scopes);
    assert forall r :: IsEnabled(u, r) == IsEnabled(v, r);
  }

  lemma ReviewersConcat(s: seq<PeerReview>, t: seq<PeerReview>)
    ensures Reviewers(s + t) == Reviewers(s) + Reviewers(t)
  {
  }

  lemma ReviewersMultiset(s: seq<PeerReview>, t: seq<PeerReview>, u: seq<PeerReview>)
    requires multiset(s) == multiset(t) + multiset(u)
    ensures multiset(Reviewers(s)) == multiset(Reviewers(t)) + multiset(Reviewers(u))
  {
    assert multiset(s) == multiset(t + u);
    ReviewersPermute(s, t + u);
    ReviewersConcat(t, u);
  }

  lemma ReviewersCut(t: seq<PeerReview>, n: nat)
    requires n < |t|
    ensures multiset(Reviewers(t)) == multiset([t[n].reviewer]) + multiset(Reviewers(CutOut(t, n)))
  {
    assert t == t[..n] + ([t[n]] + t[n + 1..]);
    ReviewersConcat(t[..n], [t[n]] + t[n + 1..]);
    ReviewersConcat([t[n]], t[n + 1..]);
    ReviewersConcat(t[..n], t[n + 1..]);
    assert Reviewers([t[n]]) == [t[n].reviewer];
  }

  lemma {:induction false} ReviewersPermute(s: seq<PeerReview>, t: seq<PeerReview>)
    requires multiset(s) == multiset(t)
    ensures multiset(Reviewers(s)) == multiset(Reviewers(t))
  {
    if s == [] {
      assert |multiset(t)| == 0;
    } else {
      var n := CutBoth(s, t);
      ReviewersPermute(CutOut(s, 0), CutOut(t, n));
      ReviewersCut(s, 0);
      ReviewersCut(t, n);
    }
  }

  lemma {:induction false} VetoesSplit(p: Profile, reviews: seq<PeerReview>, scopes: seq<string>)
    ensures multiset(WithVerdict(reviews, Veto))
            == multiset(VetoesByScope(p, reviews, scopes, true)) + multiset(VetoesByScope(p, reviews, scopes, false))
  {
    if reviews != [] { VetoesSplit(p, reviews[1..], scopes); }
  }

  /** Under role-based veto every enabled veto is counted exactly once, as blocking or as a
      non-blocking objection, and approval means that no enabled veto matches a scope. */
  lemma RoleBasedVetoPartition(p: Profile, reviews: seq<PeerReview>, scopes: seq<string>)
    requires p.strategy == RoleBasedVeto
    ensures multiset(Resolve(p, reviews, scopes).blockingVetoes)
            + multiset(Resolve(p, reviews, scopes).nonBlockingObjections)
            == multiset(Reviewers(WithVerdict(Enabled(p, Order(p, reviews)), Veto)))
    ensures Resolve(p, reviews, scopes).approved
            <==> forall r :: r in reviews ==> !(r.verdict == Veto && ScopeMatches(p, r, scopes))
  {
    var enabled := Enabled(p, Order(p, reviews));
    VetoesSplit(p, enabled, scopes);
    ReviewersMultiset(WithVerdict(enabled, Veto), VetoesByScope(p, enabled, scopes, true),
                      VetoesByScope(p, enabled, scopes, false));
    NoBlockingIff(p, reviews, scopes);
    assert |Reviewers(VetoesByScope(p, enabled, scopes, true))| == |VetoesByScope(p, enabled, scopes, true)|;
  }
}
