/**
 Environment routing: which environment an authorised Work runs in. Digests are taken as injective, so an identity is
 the fields it digests; identifiers are code unit strings, as the source orders them.
 */
module EnvironmentRouter {
  import opened Primitives
  import opened CanonicalJson
  import opened CanonicalRoundTrip

  datatype Kind = Cloud | OwnerComputer | LocalFactory

  datatype Work = Work(
    workId: string, generation: int, ownerId: string, businessId: Option<string>, repository: Option<string>,
    kind: Kind, environmentId: Option<Units>, capabilities: seq<string>)

  datatype Advertised = Advertised(name: string, version: int, available: bool)

  datatype Environment = Environment(
    id: Units, kind: Kind, ownerId: string, businessId: Option<string>, provider: string, runtime: string,
    factoryVersion: Option<string>, protocolMin: int, protocolMax: int, capabilities: seq<Advertised>,
    online: bool, observedAt: int, capacity: int, revoked: bool)

  /** The fields that an admitted identity pins; heartbeats and capacity are not among them. */
  datatype Identity = Identity(
    id: Units, kind: Kind, ownerId: string, businessId: Option<string>, provider: string, runtime: string,
    factoryVersion: Option<string>, protocolMin: int, protocolMax: int)

  datatype Qualification = Qualification(
    identity: Identity, capabilities: seq<string>, evidenceRef: string, qualifiedAt: int, expiresAt: int,
    qualified: bool)

  datatype Authority = Authority(
    workId: string, generation: int, ownerId: string, businessId: Option<string>, environmentIds: seq<Units>,
    capabilities: seq<string>, repositories: seq<string>, expiresAt: int)

  /** What the requirements digest covers: the required capabilities count as a set. */
  datatype Requirements = Requirements(work: Work, capabilities: set<string>)

  datatype Binding = Binding(
    environmentId: Units, kind: Kind, identity: Identity, factoryVersion: Option<string>, requirements: Requirements)

  datatype Decision =
    | Selected(binding: Binding)
    | Bound(binding: Binding)
    | Waiting(kind: Kind)
    | InvalidWork
    | AuthorityRequired
    | PinnedMismatch
    | AmbiguousIdentity

  const CAPABILITY_NAMES: seq<string> := [
    "filesystem", "shell", "git", "repositoryExecution", "backgroundExecution", "candidateCustody",
    "protectedVerification", "browser", "desktop", "screenshot", "appInteraction", "session.headless",
    "session.tmux", "session.cmux", "session.interactiveAttach", "session.browser", "session.notifications"]

  const STALE_AFTER := 30_000

  predicate Blank(c: char) {
    c in " \t\r\n"
  }

  predicate ValidText(s: string) {
    0 < |s| <= 200 && !Blank(s[0]) && !Blank(s[|s| - 1])
  }

  predicate ValidCapabilities(cs: seq<string>) {
    && 0 < |cs| <= |CAPABILITY_NAMES|
    && (forall i, j | 0 <= i < j < |cs| :: cs[i] != cs[j])
    && forall c <- cs :: c in CAPABILITY_NAMES
  }

  predicate NamePart(s: string) {
    s != [] && forall c <- s :: 'a' <= c <= 'z' || 'A' <= c <= 'Z' || '0' <= c <= '9' || c in "_-."
  }

  /** An owner and a repository name. */
  predicate RepositoryName(s: string) {
    exists i | 0 <= i < |s| :: s[i] == '/' && NamePart(s[..i]) && NamePart(s[i + 1..])
  }

  predicate ValidUnits(s: Units) {
    0 < |s| <= 200 && !White(s[0]) && !White(s[|s| - 1])
  }

  predicate ValidWork(w: Work) {
    && ValidText(w.workId) && ValidText(w.ownerId) && (w.businessId.Some? ==> ValidText(w.businessId.value))
    && SafeInteger(w.generation) && w.generation >= 1
    && (w.environmentId.Some? ==> ValidUnits(w.environmentId.value))
    && (w.repository.Some? ==> RepositoryName(w.repository.value))
    && ValidCapabilities(w.capabilities)
  }

  function RequirementsOf(w: Work): Requirements {
    Requirements(w.(capabilities := []), set c | c in w.capabilities)
  }

  function IdentityOf(d: Environment): Identity {
    Identity(d.id, d.kind, d.ownerId, d.businessId, d.provider, d.runtime, d.factoryVersion, d.protocolMin,
          d.protocolMax)
  }

  predicate Authorised(w: Work, a: Authority, now: int) {
    && SafeInteger(now) && now >= 0
    && a.workId == w.workId && a.generation == w.generation && a.ownerId == w.ownerId && a.businessId == w.businessId
    && SafeInteger(a.expiresAt) && a.expiresAt > now
    && ValidCapabilities(a.capabilities) && (forall c <- w.capabilities :: c in a.capabilities)
    && (w.repository.Some? ==> w.repository.value in a.repositories)
  }

  function QualificationsFor(quals: seq<Qualification>, identity: Identity): seq<Qualification> {
    if quals == [] then []
    else (if quals[0].identity == identity then [quals[0]] else []) + QualificationsFor(quals[1..], identity)
  }

  predicate Offers(d: Environment, name: string) {
    exists c <- d.capabilities :: c.name == name && c.version == 1 && c.available
  }

  predicate Qualifies(w: Work, d: Environment, q: Qualification, now: int) {
    && q.qualified && ValidText(q.evidenceRef) && SafeInteger(q.qualifiedAt) && q.qualifiedAt <= now
    && SafeInteger(q.expiresAt) && q.expiresAt > now && ValidCapabilities(q.capabilities)
    && forall name <- w.capabilities :: name in q.capabilities && Offers(d, name)
  }

  /** The environment may run the work now: reachable, permitted, and qualified by exactly one current record. */
  predicate Eligible(w: Work, d: Environment, quals: seq<Qualification>, a: Authority, now: int) {
    && d.kind == w.kind && (w.environmentId.Some? ==> d.id == w.environmentId.value)
    && d.id in a.environmentIds && !d.revoked && d.online && d.capacity >= 1
    && d.observedAt <= now && now - d.observedAt < STALE_AFTER
    && d.protocolMin <= 1 <= d.protocolMax
    && |QualificationsFor(quals, IdentityOf(d))| == 1
    && Qualifies(w, d, QualificationsFor(quals, IdentityOf(d))[0], now)
  }

  predicate Owned(w: Work, d: Environment) {
    d.ownerId == w.ownerId && d.businessId == w.businessId
  }

  /** The owner's environments, by identifier. */
  function Candidates(w: Work, environments: seq<Environment>): seq<Entry<Environment>> {
    if environments == [] then []
    else
      (if Owned(w, environments[0]) then [Entry(environments[0].id, environments[0])] else [])
      + Candidates(w, environments[1..])
  }

  /** The first eligible environment of a list. */
  function Scan(w: Work, sorted: seq<Entry<Environment>>, quals: seq<Qualification>, a: Authority, now: int)
    : Option<Environment>
  {
    if sorted == [] then None
    else if Eligible(w, sorted[0].value, quals, a, now) then Some(sorted[0].value)
    else Scan(w, sorted[1..], quals, a, now)
  }

  function BindingTo(w: Work, d: Environment): Binding {
    Binding(d.id, d.kind, IdentityOf(d), d.factoryVersion, RequirementsOf(w))
  }

  function Route(w: Work, environments: seq<Environment>, quals: seq<Qualification>, a: Authority, now: int,
                 pinned: Option<Binding>): Decision
  {
    if !ValidWork(w) then InvalidWork
    else if !Authorised(w, a, now) then AuthorityRequired
    else if pinned.Some? then
      var p := pinned.value;
      if p.requirements != RequirementsOf(w) || p.kind != w.kind
         || p.environmentId !in a.environmentIds then PinnedMismatch
      else Bound(p)
    else if !DistinctKeys(Candidates(w, environments)) then AmbiguousIdentity
    else
      match Scan(w, Sort(Candidates(w, environments)), quals, a, now)
      case None => Waiting(w.kind)
      case Some(d) => Selected(BindingTo(w, d))
  }

  // ---------------------------------------------------------------- what a decision means

  lemma {:induction false} CandidatesHold(w: Work, environments: seq<Environment>)
    ensures forall e :: e in Candidates(w, environments) <==>
            e.value in environments && Owned(w, e.value) && e.key == e.value.id
  {
    if environments != [] {
      CandidatesHold(w, environments[1..]);
      assert environments == [environments[0]] + environments[1..];
    }
  }

  /** Everything in the tail of a sorted list comes after its head. */
  predicate Sorted(entries: seq<Entry<Environment>>) {
    forall i, j | 0 <= i < j < |entries| :: Before(entries[i].key, entries[j].key)
  }

  lemma {:induction false} InsertSorts(e: Entry<Environment>, s: seq<Entry<Environment>>)
    requires Sorted(s) && forall x <- s :: x.key != e.key
    ensures Sorted(Insert(e, s))
  {
    if s != [] {
      assert s[0] in s;
      BeforeIsTotal(e.key, s[0].key);
      if Before(e.key, s[0].key) {
        forall j | 0 < j < |s| ensures Before(e.key, s[j].key) {
          BeforeIsTransitive(e.key, s[0].key, s[j].key);
        }
      } else {
        InsertSorts(e, s[1..]);
        InsertHolds(e, s[1..]);
        var r := Insert(e, s[1..]);
        forall j | 0 <= j < |r| ensures Before(s[0].key, r[j].key) {
          assert r[j] in r;
        }
      }
    }
  }

  lemma {:induction false} SortSorts(entries: seq<Entry<Environment>>)
    requires DistinctKeys(entries)
    ensures Sorted(Sort(entries))
  {
    if entries != [] {
      SortSorts(entries[1..]);
      SortHolds(entries[1..]);
      forall x | x in Sort(entries[1..]) ensures x.key != entries[0].key {
        assert x in entries[1..];
        FirstKeyIsAlone(entries, x);
      }
      InsertSorts(entries[0], Sort(entries[1..]));
    }
  }

  /** A scan of a sorted list finds the least eligible entry, or that there is none. */
  lemma {:induction false} ScanFinds(w: Work, sorted: seq<Entry<Environment>>, quals: seq<Qualification>, a: Authority,
      now: int)
    requires Sorted(sorted) && forall e <- sorted :: e.key == e.value.id
    ensures var found := Scan(w, sorted, quals, a, now);
            && (found.None? <==> forall e <- sorted :: !Eligible(w, e.value, quals, a, now))
            && (found.Some? ==> Entry(found.value.id, found.value) in sorted && Eligible(w, found.value, quals, a, now)
                                && forall e <- sorted | Eligible(w, e.value, quals, a, now) ::
                                     e.value == found.value || Before(found.value.id, e.key))
  {
    if sorted != [] {
      assert sorted == [sorted[0]] + sorted[1..];
      assert sorted[0] in sorted;
      ScanFinds(w, sorted[1..], quals, a, now);
      forall e | e in sorted[1..] ensures Before(sorted[0].key, e.key) {
        var j :| 0 <= j < |sorted[1..]| && sorted[1..][j] == e;
        assert sorted[j + 1] == e;
      }
    }
  }

  /** Two of the owner's environments share an identifier. */
  predicate Duplicated(w: Work, environments: seq<Environment>) {
    exists i, j | 0 <= i < j < |environments| ::
      Owned(w, environments[i]) && Owned(w, environments[j]) && environments[i].id == environments[j].id
  }

  lemma DistinctUnfolds(entries: seq<Entry<Environment>>)
    requires entries != []
    ensures DistinctKeys(entries) <==> DistinctKeys(entries[1..]) && forall e <- entries[1..] :: e.key != entries[0].key
  {
    var rest := entries[1..];
    if DistinctKeys(rest) && forall e <- rest :: e.key != entries[0].key {
      forall i, j | 0 <= i < j < |entries| ensures entries[i].key != entries[j].key {
        assert entries[j] == rest[j - 1];
        if i > 0 {
          assert entries[i] == rest[i - 1];
        }
      }
    }
    if DistinctKeys(entries) {
      forall e | e in rest ensures e.key != entries[0].key {
        FirstKeyIsAlone(entries, e);
      }
    }
  }

  lemma {:induction false} DistinctIsNotDuplicated(w: Work, environments: seq<Environment>)
    ensures DistinctKeys(Candidates(w, environments)) <==> !Duplicated(w, environments)
  {
    if environments != [] {
      var first, rest := environments[0], environments[1..];
      DistinctIsNotDuplicated(w, rest);
      CandidatesHold(w, rest);
      var more := Candidates(w, rest);
      if Owned(w, first) {
        assert Candidates(w, environments)[1..] == more;
        DistinctUnfolds(Candidates(w, environments));
        assert (forall e <- more :: e.key != first.id) <==> !exists d <- rest :: Owned(w, d) && d.id == first.id by {
          if d :| d in rest && Owned(w, d) && d.id == first.id {
            assert Entry(d.id, d) in more;
          }
        }
      } else {
        assert Candidates(w, environments) == more;
      }
      DuplicatedUnfolds(w, environments);
    }
  }

  lemma DuplicatedUnfolds(w: Work, environments: seq<Environment>)
    requires environments != []
    ensures Duplicated(w, environments) <==>
            Duplicated(w, environments[1..])
            || (Owned(w, environments[0]) && exists d <- environments[1..] :: Owned(w, d) && d.id == environments[0].id)
  {
    var rest := environments[1..];
    if Duplicated(w, environments) {
      var i, j :| 0 <= i < j < |environments| && Owned(w, environments[i]) && Owned(w, environments[j])
          && environments[i].id == environments[j].id;
      assert environments[j] == rest[j - 1];
      if i > 0 {
        assert environments[i] == rest[i - 1];
      }
    }
    if Duplicated(w, rest) {
      var i, j :| 0 <= i < j < |rest| && Owned(w, rest[i]) && Owned(w, rest[j]) && rest[i].id == rest[j].id;
      assert environments[i + 1] == rest[i] && environments[j + 1] == rest[j];
    }
  }

  /** The eligible environment with the least identifier. */
  predicate LeastEligible(
    w: Work, environments: seq<Environment>, quals: seq<Qualification>, a: Authority, now: int, d: Environment)
  {
    && d in environments && Owned(w, d) && Eligible(w, d, quals, a, now)
    && forall e <- environments | Owned(w, e) && Eligible(w, e, quals, a, now) :: e == d || Before(d.id, e.id)
  }

  /**
   An authorised, unpinned Work is denied exactly when two of its owner's environments share an identifier; otherwise
   it is given the eligible environment with the least identifier, and waits exactly when there is none.
   */
  lemma RouteMeans(w: Work, environments: seq<Environment>, quals: seq<Qualification>, a: Authority, now: int)
    requires ValidWork(w) && Authorised(w, a, now)
    ensures var r := Route(w, environments, quals, a, now, None);
            && (r == AmbiguousIdentity <==> Duplicated(w, environments))
            && (r.Waiting? <==>
                  !Duplicated(w, environments)
                  && forall d <- environments | Owned(w, d) :: !Eligible(w, d, quals, a, now))
            && (forall d :: !Duplicated(w, environments) && LeastEligible(w, environments, quals, a, now, d) ==>
                 r == Selected(BindingTo(w, d)))
            && (r.Selected? ==>
                  exists d :: LeastEligible(w, environments, quals, a, now, d) && r == Selected(BindingTo(w, d)))
  {
    var candidates := Candidates(w, environments);
    DistinctIsNotDuplicated(w, environments);
    CandidatesHold(w, environments);
    if DistinctKeys(candidates) {
      SortHolds(candidates);
      SortSorts(candidates);
      ScanFinds(w, Sort(candidates), quals, a, now);
      var found := Scan(w, Sort(candidates), quals, a, now);
      forall d | d in environments && Owned(w, d) ensures Entry(d.id, d) in Sort(candidates) {
        assert Entry(d.id, d) in candidates;
      }
      if found.Some? {
        assert LeastEligible(w, environments, quals, a, now, found.value);
        forall d | LeastEligible(w, environments, quals, a, now, d) ensures d == found.value {
          BeforeIsTotal(d.id, found.value.id);
        }
      }
    }
  }

  // ---------------------------------------------------------------- order independence

  lemma {:induction false} QualificationsBag(quals: seq<Qualification>, identity: Identity)
    ensures forall q :: multiset(QualificationsFor(quals, identity))[q] ==
                        if q.identity == identity then multiset(quals)[q] else 0
  {
    if quals != [] {
      QualificationsBag(quals[1..], identity);
      assert quals == [quals[0]] + quals[1..];
    }
  }

  lemma SameBag<T>(a: seq<T>, b: seq<T>)
    requires multiset(a) == multiset(b)
    ensures |a| == |b| && (|a| == 1 ==> a == b)
  {
    assert |a| == |multiset(a)| && |b| == |multiset(b)|;
    if |a| == 1 {
      assert a[0] in multiset(b);
    }
  }

  /** The records for an identity are the same ones, up to order. */
  lemma QualificationsPermute(quals: seq<Qualification>, quals': seq<Qualification>, identity: Identity)
    requires multiset(quals) == multiset(quals')
    ensures var a, b := QualificationsFor(quals, identity), QualificationsFor(quals', identity);
            |a| == |b| && (|a| == 1 ==> a == b)
  {
    QualificationsBag(quals, identity);
    QualificationsBag(quals', identity);
    SameBag(QualificationsFor(quals, identity), QualificationsFor(quals', identity));
  }

  lemma EligiblePermutes(w: Work, w': Work, d: Environment, quals: seq<Qualification>, quals': seq<Qualification>,
      a: Authority, now: int)
    requires multiset(quals) == multiset(quals')
    requires w' == w.(capabilities := w'.capabilities) && multiset(w.capabilities) == multiset(w'.capabilities)
    ensures Eligible(w, d, quals, a, now) <==> Eligible(w', d, quals', a, now)
  {
    QualificationsPermute(quals, quals', IdentityOf(d));
    SameMembers(w.capabilities, w'.capabilities);
  }

  lemma SameMembers<T>(a: seq<T>, b: seq<T>)
    requires multiset(a) == multiset(b)
    ensures forall x <- a :: x in b
    ensures forall x <- b :: x in a
  {
    forall x | x in a ensures x in b {
      assert x in multiset(a);
    }
    forall x | x in b ensures x in a {
      assert x in multiset(b);
    }
  }

  lemma {:induction false} CandidatesBag(w: Work, environments: seq<Environment>)
    ensures forall e :: multiset(Candidates(w, environments))[e] ==
                        if Owned(w, e.value) && e.key == e.value.id then multiset(environments)[e.value] else 0
  {
    if environments != [] {
      CandidatesBag(w, environments[1..]);
      assert environments == [environments[0]] + environments[1..];
    }
  }

  lemma {:induction false} OccursOnce(entries: seq<Entry<Environment>>, e: Entry<Environment>)
    requires DistinctKeys(entries)
    ensures multiset(entries)[e] <= 1
  {
    if entries != [] {
      OccursOnce(entries[1..], e);
      DistinctUnfolds(entries);
      assert entries == [entries[0]] + entries[1..];
      assert e == entries[0] ==> e !in entries[1..];
    }
  }

  lemma OccursTwice<T>(s: seq<T>, i: nat, j: nat)
    requires i < j < |s| && s[i] == s[j]
    ensures multiset(s)[s[i]] >= 2
  {
    assert s == s[..j] + s[j..];
    assert s[..j][i] in multiset(s[..j]) && s[j..][0] in multiset(s[j..]);
  }

  lemma DistinctPermutes(a: seq<Entry<Environment>>, b: seq<Entry<Environment>>)
    requires multiset(a) == multiset(b) && DistinctKeys(a)
    ensures DistinctKeys(b)
  {
    SameMembers(a, b);
    forall i, j | 0 <= i < j < |b| ensures b[i].key != b[j].key {
      assert b[i] in b && b[j] in b;
      if b[i] == b[j] {
        OccursTwice(b, i, j);
        OccursOnce(a, b[i]);
      }
    }
  }

  /** The scan of permuted inputs is the same scan. */
  lemma {:induction false} ScanPermutes(w: Work, w': Work, sorted: seq<Entry<Environment>>, quals: seq<Qualification>,
                                        quals': seq<Qualification>, a: Authority, now: int)
    requires multiset(quals) == multiset(quals')
    requires w' == w.(capabilities := w'.capabilities) && multiset(w.capabilities) == multiset(w'.capabilities)
    ensures Scan(w, sorted, quals, a, now) == Scan(w', sorted, quals', a, now)
  {
    if sorted != [] {
      EligiblePermutes(w, w', sorted[0].value, quals, quals', a, now);
      ScanPermutes(w, w', sorted[1..], quals, quals', a, now);
    }
  }

  lemma CandidatesPermute(w: Work, environments: seq<Environment>, environments': seq<Environment>)
    requires multiset(environments) == multiset(environments')
    ensures var a, b := Candidates(w, environments), Candidates(w, environments');
            && (DistinctKeys(a) <==> DistinctKeys(b))
            && (DistinctKeys(a) ==> Sort(a) == Sort(b))
  {
    var a, b := Candidates(w, environments), Candidates(w, environments');
    CandidatesBag(w, environments);
    CandidatesBag(w, environments');
    assert multiset(a) == multiset(b);
    SameBag(a, b);
    SameMembers(a, b);
    if DistinctKeys(b) {
      DistinctPermutes(b, a);
    }
    if DistinctKeys(a) {
      DistinctPermutes(a, b);
      SortIgnoresOrder(a, b);
    }
  }

  lemma ValidPermutes(w: Work, w': Work, a: Authority, now: int)
    requires w' == w.(capabilities := w'.capabilities) && multiset(w.capabilities) == multiset(w'.capabilities)
    requires ValidWork(w) && ValidWork(w')
    ensures Authorised(w, a, now) <==> Authorised(w', a, now)
    ensures RequirementsOf(w) == RequirementsOf(w')
  {
    SameMembers(w.capabilities, w'.capabilities);
  }

  lemma CandidatesOfSameOwner(w: Work, w': Work, environments: seq<Environment>)
    requires w' == w.(capabilities := w'.capabilities)
    ensures Candidates(w, environments) == Candidates(w', environments)
  {
  }

  /** The decision does not depend on the order of environments, of qualifications or of required capabilities. */
  lemma RouteIgnoresOrder(w: Work, w': Work, environments: seq<Environment>, environments': seq<Environment>,
                          quals: seq<Qualification>, quals': seq<Qualification>, a: Authority, now: int,
                          pinned: Option<Binding>)
    requires ValidWork(w) && ValidWork(w')
    requires w' == w.(capabilities := w'.capabilities) && multiset(w.capabilities) == multiset(w'.capabilities)
    requires multiset(environments) == multiset(environments') && multiset(quals) == multiset(quals')
    ensures Route(w, environments, quals, a, now, pinned) == Route(w', environments', quals', a, now, pinned)
  {
    ValidPermutes(w, w', a, now);
    CandidatesOfSameOwner(w, w', environments');
    CandidatesPermute(w, environments, environments');
    ScanPermutes(w, w', Sort(Candidates(w, environments)), quals, quals', a, now);
  }
}
