/** Agreement between the records, the outbox and the remote server, application by application, over whole runs. */
module Agreement {
  import opened Common
  import opened Domain
  import opened Repositories
  import opened Hydra
  import P = Protocol
  import opened Protocol
  import opened Lifecycle
  import opened Invariant
  import opened Steps
  import opened Runs
  import opened Tearing

  // ---------------------------------------------------------------- the invariant as a whole

  /** No step before the n-th state is torn on any application.  Worker passes may fail at any place. */
  ghost predicate Untorn(cfg: Config, r: Run, n: nat)
    requires n <= |r.steps| < |r.states|
  {
    forall i, a :: 0 <= i < n ==> !Torn(cfg, r.states[i].store, r.steps[i], a)
  }

  lemma {:induction false} RunInv(cfg: Config, r: Run, n: nat)
    requires ValidRun(cfg, r) && n < |r.states| && Untorn(cfg, r, n)
    ensures Inv(r.states[n])
  {
    hide Torn;
    if n > 0 {
      RunInv(cfg, r, n - 1);
      hide Inv;
      assert StepAt(cfg, r, n - 1);
      StepKeeps(cfg, r.states[n - 1], r.steps[n - 1]);
    }
  }

  /** The first torn step breaks the invariant at once. */
  lemma TornBreaks(cfg: Config, r: Run, n: nat, a: AppId)
    requires ValidRun(cfg, r) && n < |r.steps| && Untorn(cfg, r, n) && Torn(cfg, r.states[n].store, r.steps[n], a)
    ensures !Inv(r.states[n + 1])
  {
    hide Torn;
    RunInv(cfg, r, n);
    hide Inv;
    assert StepAt(cfg, r, n);
    StepKeeps(cfg, r.states[n], r.steps[n]);
  }

  // ---------------------------------------------------------------- conservation of remote clients

  /** Some step before the n-th state lost the application's client. */
  ghost predicate LostClient(cfg: Config, r: Run, n: nat, a: AppId)
    requires n <= |r.steps| < |r.states|
  {
    exists i :: 0 <= i < n && ClientTorn(cfg, r.states[i].store, r.steps[i], a)
  }

  lemma PresentNext(cfg: Config, st: State, step: Step, a: AppId, lost: bool)
    requires Base(st) && Allowed(st, step) && (Present(st, a) <==> !(ApprovedRecord(st, a) && lost))
    requires lost && ApprovedRecord(Apply(cfg, st, step), a) ==> ApprovedRecord(st, a)
    ensures var st' := Apply(cfg, st, step);
            Present(st', a) <==> !(ApprovedRecord(st', a) && (lost || ClientTorn(cfg, st.store, step, a)))
  {
    hide Apply, Base, Allowed, Present, Matches, Writes, ClientTorn, ContentTorn, ApprovedRecord;
    if !Present(st, a) {
      MissingStays(cfg, st, step, a);
    } else {
      ClientStep(cfg, st, step, a);
      if ClientTorn(cfg, st.store, step, a) {
        TearLeavesApproved(cfg, st, step, a);
      }
    }
  }

  /** In every run, an application's client is missing exactly while it is approved after a client tear of its own. */
  lemma {:induction false} PresentExactly(cfg: Config, r: Run, n: nat, a: AppId)
    requires ValidRun(cfg, r) && n < |r.states|
    ensures Present(r.states[n], a) <==> !(ApprovedRecord(r.states[n], a) && LostClient(cfg, r, n, a))
  {
    if n > 0 {
      assert |r.states| == |r.steps| + 1;
      hide Apply, Base, Present, ClientTorn, Allowed, ValidRun, ApprovedRecord;
      PresentExactly(cfg, r, n - 1, a);
      At(cfg, r, n - 1);
      ApprovedBefore(cfg, r, n - 1, a);
      var st, step := r.states[n - 1], r.steps[n - 1];
      assert LostClient(cfg, r, n, a) <==> LostClient(cfg, r, n - 1, a) || ClientTorn(cfg, st.store, step, a);
      PresentNext(cfg, st, step, a, LostClient(cfg, r, n - 1, a));
    }
  }

  /** The application was approved all along since it lost its client. */
  lemma ApprovedBefore(cfg: Config, r: Run, n: nat, a: AppId)
    requires ValidRun(cfg, r) && n < |r.steps|
    ensures LostClient(cfg, r, n, a) && ApprovedRecord(r.states[n + 1], a) ==> ApprovedRecord(r.states[n], a)
  {
    hide Apply;
    if LostClient(cfg, r, n, a) && ApprovedRecord(r.states[n + 1], a) {
      var i :| 0 <= i < n && ClientTorn(cfg, r.states[i].store, r.steps[i], a);
      TornApproved(cfg, r.states[i].store, r.steps[i], a);
      StillStored(cfg, r, i, n, n + 1, a);
      ForwardOnly(cfg, r, i, n, a);
      ForwardOnly(cfg, r, n, n + 1, a);
    }
  }

  lemma TornApproved(cfg: Config, s: Store, step: Step, a: AppId)
    requires ClientTorn(cfg, s, step, a)
    ensures a in s.apps && s.apps[a].status.Approved? && !step.op.RunOnce?
  {
  }

  /** After a client tear the record is still approved. */
  lemma TearLeavesApproved(cfg: Config, st: State, step: Step, a: AppId)
    requires Base(st) && Allowed(st, step) && ClientTorn(cfg, st.store, step, a) && !Present(Apply(cfg, st, step), a)
    ensures ApprovedRecord(Apply(cfg, st, step), a)
  {
    TornApproved(cfg, st.store, step, a);
    Known(st, a);
    IssuedKept(cfg, st, step);
    hide Apply, Base;
  }

  /** The client each application answers for, as one map. */
  ghost function OwnedClients(st: State): map<AppId, ClientId> {
    map a | a in st.store.apps.Keys + st.cache.Keys && Holds(st, a).Some? :: Holds(st, a).value
  }

  ghost predicate OneToOne(m: map<AppId, ClientId>) {
    forall a, b :: a in m && b in m && m[a] == m[b] ==> a == b
  }

  /**
   In every run the clients that applications answer for are distinct and no live client is without one.  The
   live clients are exactly those of approved records and cached credentials if and only if no application
   that is still approved has lost its client to a client tear.
   */
  lemma Conservation(cfg: Config, r: Run, n: nat)
    requires ValidRun(cfg, r) && n < |r.states|
    ensures OneToOne(OwnedClients(r.states[n])) && r.states[n].store.live.Keys <= OwnedClients(r.states[n]).Values
    ensures OwnedClients(r.states[n]).Values == r.states[n].store.live.Keys
            <==> forall a :: ApprovedRecord(r.states[n], a) ==> !LostClient(cfg, r, n, a)
  {
    RunBase(cfg, r, n);
    var st := r.states[n];
    OwnedApart(st);
    NoneOrphaned(st);
    forall a: AppId ensures Present(st, a) <==> !(ApprovedRecord(st, a) && LostClient(cfg, r, n, a)) {
      PresentExactly(cfg, r, n, a);
    }
    AllPresent(st);
    hide Present, OwnedClients, ApprovedRecord, LostClient, Base;
  }

  lemma OwnedApart(st: State)
    requires Base(st)
    ensures OneToOne(OwnedClients(st))
  {
    hide Base, Holds;
    Parts(st);
    var m := OwnedClients(st);
    forall a, b | a in m && b in m && m[a] == m[b] ensures a == b {
      HeldOnce(st, a, b);
    }
  }

  lemma NoneOrphaned(st: State)
    requires Base(st)
    ensures st.store.live.Keys <= OwnedClients(st).Values
  {
    Parts(st);
    hide Base;
    forall c | c in st.store.live ensures c in OwnedClients(st).Values {
      var a :| Holds(st, a) == Some(c);
      assert a in OwnedClients(st) && OwnedClients(st)[a] == c;
    }
  }

  lemma AllPresent(st: State)
    requires Base(st)
    ensures OwnedClients(st).Values <= st.store.live.Keys <==> forall a :: Present(st, a)
  {
    hide Base;
    var m := OwnedClients(st);
    if m.Values <= st.store.live.Keys {
      forall a ensures Present(st, a) {
        if Holds(st, a).Some? {
          assert a in m && m[a] in m.Values;
        }
      }
    }
    if forall a :: Present(st, a) {
      forall c | c in m.Values ensures c in st.store.live {
        var a :| a in m && m[a] == c;
        assert Present(st, a);
      }
    }
  }

  // ---------------------------------------------------------------- contents

  /** Between the two positions no step tore the content of the application's client from its record's. */
  ghost predicate ContentKept(cfg: Config, r: Run, k: nat, n: nat, a: AppId)
    requires k <= n <= |r.steps| < |r.states|
  {
    forall i :: k <= i < n ==> !ContentTorn(cfg, r.states[i].store, r.steps[i], a)
  }

  /** Once client and record match, they do until a content tear of this very application. */
  lemma {:induction false} MatchesSince(cfg: Config, r: Run, k: nat, n: nat, a: AppId)
    requires ValidRun(cfg, r) && k <= n < |r.states| && Matches(r.states[k], a) && ContentKept(cfg, r, k, n, a)
    ensures Matches(r.states[n], a)
  {
    if k < n {
      MatchesSince(cfg, r, k, n - 1, a);
      At(cfg, r, n - 1);
      hide Apply, Base, Matches, ContentTorn, Writes, Allowed;
      ClientStep(cfg, r.states[n - 1], r.steps[n - 1], a);
    }
  }

  ghost predicate WritesAt(cfg: Config, r: Run, i: int, a: AppId)
    requires 0 <= i < |r.steps| < |r.states|
  {
    Writes(cfg, r.states[i].store, r.steps[i], a)
  }

  /** No step from position k on writes the application's client. */
  ghost predicate Unwritten(cfg: Config, r: Run, k: nat, n: nat, a: AppId)
    requires k <= n <= |r.steps| < |r.states|
  {
    forall i :: k <= i < n ==> !WritesAt(cfg, r, i, a)
  }

  /** Position i holds the last write of the application's client. */
  ghost predicate LastWrite(cfg: Config, r: Run, i: int, n: nat, a: AppId)
    requires n <= |r.steps| < |r.states|
  {
    0 <= i < n && WritesAt(cfg, r, i, a) && Unwritten(cfg, r, i + 1, n, a)
  }

  lemma {:induction false} FindWrite(cfg: Config, r: Run, n: nat, a: AppId) returns (i: int)
    requires n <= |r.steps| < |r.states|
    ensures if i < 0 then Unwritten(cfg, r, 0, n, a) else LastWrite(cfg, r, i, n, a)
  {
    hide WritesAt;
    if n == 0 {
      i := -1;
    } else if WritesAt(cfg, r, n - 1, a) {
      i := n - 1;
    } else {
      i := FindWrite(cfg, r, n - 1, a);
    }
  }

  lemma ViewTrans(st: State, st': State, st'': State, a: AppId)
    requires SameView(st, st', a) && SameView(st', st'', a)
    ensures SameView(st, st'', a)
  {
  }

  /** An application approved at two positions was approved all the time in between. */
  lemma ApprovedBetween(cfg: Config, r: Run, k: nat, m: nat, n: nat, a: AppId)
    requires ValidRun(cfg, r) && k <= m <= n < |r.states| && ApprovedRecord(r.states[k], a)
             && ApprovedRecord(r.states[n], a)
    ensures ApprovedRecord(r.states[m], a)
  {
    hide ValidRun;
    StillStored(cfg, r, k, m, n, a);
    ForwardOnly(cfg, r, k, m, a);
    ForwardOnly(cfg, r, m, n, a);
  }

  lemma QuietAt(cfg: Config, r: Run, m: nat, a: AppId)
    requires ValidRun(cfg, r) && m < |r.steps| && ApprovedRecord(r.states[m], a) && ApprovedRecord(r.states[m + 1], a)
    requires !WritesAt(cfg, r, m, a) && !ClientTorn(cfg, r.states[m].store, r.steps[m], a)
    ensures SameView(r.states[m], r.states[m + 1], a)
  {
    hide Apply, Base, Allowed, ClientTorn, Writes, SameView, ApprovedRecord;
    At(cfg, r, m);
    QuietStep(cfg, r.states[m], r.steps[m], a);
  }

  /** Unwritten and not lost, the client of an approved application and its record stay exactly as they are. */
  lemma {:induction false} QuietSince(cfg: Config, r: Run, k: nat, n: nat, a: AppId)
    requires ValidRun(cfg, r) && k <= n < |r.states| && ApprovedRecord(r.states[k], a) && ApprovedRecord(r.states[n], a)
    requires Unwritten(cfg, r, k, n, a) && !LostClient(cfg, r, n, a)
    ensures SameView(r.states[k], r.states[n], a)
  {
    if k < n {
      hide ValidRun, ClientTorn, WritesAt, ApprovedRecord, SameView;
      ApprovedBetween(cfg, r, k, n - 1, n, a);
      QuietSince(cfg, r, k, n - 1, a);
      QuietAt(cfg, r, n - 1, a);
      ViewTrans(r.states[k], r.states[n - 1], r.states[n], a);
    }
  }

  /** The position from which an approved application has been approved. */
  lemma {:induction false} ApprovalPoint(cfg: Config, r: Run, n: nat, a: AppId) returns (m: nat)
    requires ValidRun(cfg, r) && n < |r.states| && ApprovedRecord(r.states[n], a)
    ensures m < n && !ApprovedRecord(r.states[m], a) && ApprovedRecord(r.states[m + 1], a)
  {
    assert n > 0;
    if ApprovedRecord(r.states[n - 1], a) {
      m := ApprovalPoint(cfg, r, n - 1, a);
    } else {
      m := n - 1;
    }
  }

  /** Before its approval an application has seen no write, so no content tear. */
  lemma NotYetWritten(cfg: Config, r: Run, m: nat, a: AppId)
    requires ValidRun(cfg, r) && m < |r.steps| && !ApprovedRecord(r.states[m], a) && ApprovedRecord(r.states[m + 1], a)
    ensures Unwritten(cfg, r, 0, m + 1, a) && ContentKept(cfg, r, 0, m, a)
  {
    forall i | 0 <= i < m + 1 ensures !Writes(cfg, r.states[i].store, r.steps[i], a) {
      if Writes(cfg, r.states[i].store, r.steps[i], a) {
        ApprovedBetween(cfg, r, i, m, m + 1, a);
      }
    }
    forall i | 0 <= i < m ensures !ContentTorn(cfg, r.states[i].store, r.steps[i], a) {
      TornWrites(cfg, r.states[i].store, r.steps[i], a);
    }
  }

  lemma TornWrites(cfg: Config, s: Store, step: Step, a: AppId)
    ensures ContentTorn(cfg, s, step, a) ==> Writes(cfg, s, step, a)
  {
    hide EnsureEligible, Confirmed;
  }

  /** Never written, the client of an approved application is as it was registered. */
  lemma AsRegistered(cfg: Config, r: Run, n: nat, a: AppId)
    requires ValidRun(cfg, r) && n < |r.states| && ApprovedRecord(r.states[n], a)
    requires !LostClient(cfg, r, n, a) && Unwritten(cfg, r, 0, n, a)
    ensures Matches(r.states[n], a) && SecretLive(r.states[n], a) && PolicyOf(r.states[n], a).StandardPolicy?
  {
    hide Apply, Base, Allowed, Writes, ClientTorn, ContentTorn;
    var m := ApprovalPoint(cfg, r, n, a);
    NotYetWritten(cfg, r, m, a);
    PresentExactly(cfg, r, m, a);
    MatchesSince(cfg, r, 0, m, a);
    At(cfg, r, m);
    ApprovalStep(cfg, r.states[m], r.steps[m], a);
    QuietSince(cfg, r, m + 1, n, a);
    RunBase(cfg, r, m + 1);
    Known(r.states[m + 1], a);
    hide ValidRun, Unwritten, LostClient, ContentKept;
    ViewContents(r.states[m + 1], r.states[n], a);
  }

  lemma ViewContents(st: State, st': State, a: AppId)
    requires SameView(st, st', a) && ApprovedRecord(st, a) && a !in st.cache
             && st.store.apps[a].clientId in st.store.live
    ensures ApprovedRecord(st', a) && st'.store.apps[a].clientId in st'.store.live
    ensures (Matches(st', a) <==> Matches(st, a)) && (SecretLive(st', a) <==> SecretLive(st, a))
    ensures PolicyOf(st', a) == PolicyOf(st, a)
  {
  }

  /** What the last write left behind is still there. */
  lemma AsWritten(cfg: Config, r: Run, i: nat, n: nat, a: AppId)
    requires ValidRun(cfg, r) && n < |r.states| && ApprovedRecord(r.states[n], a)
    requires !LostClient(cfg, r, n, a) && LastWrite(cfg, r, i, n, a)
    ensures r.states[n].store.apps[a].clientId in r.states[n].store.live
    ensures var torn, rotates := ContentTorn(cfg, r.states[i].store, r.steps[i], a), r.steps[i].op.RotateSecret?;
            && (Matches(r.states[n], a) <==> !torn) && (SecretLive(r.states[n], a) <==> !(torn && rotates))
            && (PolicyOf(r.states[n], a).NoPolicy? <==> rotates)
  {
    hide Apply, Base, Allowed, Writes, ClientTorn, ContentTorn, Matches, SecretLive, PolicyOf;
    At(cfg, r, i);
    WriteStep(cfg, r.states[i], r.steps[i], a);
    RunBase(cfg, r, i + 1);
    Known(r.states[i + 1], a);
    QuietSince(cfg, r, i + 1, n, a);
    hide ValidRun, Unwritten, LostClient, SameView;
    ViewContents(r.states[i + 1], r.states[n], a);
  }

  /** The last write of the application's client was a content tear. */
  ghost predicate Parted(cfg: Config, r: Run, n: nat, a: AppId)
    requires n <= |r.steps| < |r.states|
  {
    exists i :: LastWrite(cfg, r, i, n, a) && ContentTorn(cfg, r.states[i].store, r.steps[i], a)
  }

  /** The last write was a rotation whose secret was not stored. */
  ghost predicate SecretParted(cfg: Config, r: Run, n: nat, a: AppId)
    requires n <= |r.steps| < |r.states|
  {
    exists i :: LastWrite(cfg, r, i, n, a) && ContentTorn(cfg, r.states[i].store, r.steps[i], a)
      && r.steps[i].op.RotateSecret?
  }

  /** The last write was a rotation, stored or not. */
  ghost predicate LastRotated(cfg: Config, r: Run, n: nat, a: AppId)
    requires n <= |r.steps| < |r.states|
  {
    exists i :: LastWrite(cfg, r, i, n, a) && r.steps[i].op.RotateSecret?
  }

  lemma OneLastWrite(cfg: Config, r: Run, i: int, j: int, n: nat, a: AppId)
    requires n <= |r.steps| < |r.states| && LastWrite(cfg, r, i, n, a) && LastWrite(cfg, r, j, n, a)
    ensures i == j
  {
    hide WritesAt;
  }

  /**
   In every run, for an approved application that has not lost its client: client and record match exactly unless
   the last write of the client was a content tear, the stored secret is the live one exactly unless that tear was a
   rotation, and the client lacks the token strategy and lifespans exactly if the last write was a rotation.
   */
  lemma ContentsExactly(cfg: Config, r: Run, n: nat, a: AppId)
    requires ValidRun(cfg, r) && n < |r.states| && ApprovedRecord(r.states[n], a) && !LostClient(cfg, r, n, a)
    ensures r.states[n].store.apps[a].clientId in r.states[n].store.live
    ensures Matches(r.states[n], a) <==> !Parted(cfg, r, n, a)
    ensures SecretLive(r.states[n], a) <==> !SecretParted(cfg, r, n, a)
    ensures PolicyOf(r.states[n], a).NoPolicy? <==> LastRotated(cfg, r, n, a)
  {
    assert |r.states| == |r.steps| + 1;
    hide ValidRun, LostClient, Matches, PolicyOf, ContentTorn, WritesAt, ApprovedRecord;
    var i := FindWrite(cfg, r, n, a);
    if i < 0 {
      AsRegistered(cfg, r, n, a);
    } else {
      hide SecretLive;
      AsWritten(cfg, r, i, n, a);
      forall j | LastWrite(cfg, r, j, n, a) ensures j == i {
        OneLastWrite(cfg, r, i, j, n, a);
      }
      hide LastWrite;
    }
  }

  /** The client has the record's name, logo, addresses and owner, and the sealed secret opens to the live one. */
  predicate SameContent(st: State, a: AppId)
    requires a in st.store.apps
  {
    var app, live := st.store.apps[a], st.store.live;
    && app.clientId != "" && app.clientId in live
    && live[app.clientId].registration.name == app.name && live[app.clientId].registration.logo == app.logo
    && live[app.clientId].registration.redirectURIs == app.callbacks
    && live[app.clientId].registration.owner == app.owner
    && Open(app.secret, Binding(a, app.clientId)) == Some(live[app.clientId].secret)
  }

  lemma MatchedContent(st: State, a: AppId)
    requires Base(st) && ApprovedRecord(st, a)
    ensures SameContent(st, a) <==> Present(st, a) && Matches(st, a)
  {
    Known(st, a);
    hide Base;
  }

  /**
   In every run an approved application agrees with its client if and only if no client tear hit it and the last
   write of its client was no content tear; its secret version always counts its rotations.
   */
  lemma ApprovedMatches(cfg: Config, r: Run, n: nat, a: AppId)
    requires ValidRun(cfg, r) && n < |r.states| && ApprovedRecord(r.states[n], a)
    ensures r.states[n].store.apps[a].secretVersion == 1 + Rotations(cfg, r, a, n)
    ensures SameContent(r.states[n], a) <==> !LostClient(cfg, r, n, a) && !Parted(cfg, r, n, a)
  {
    SecretVersions(cfg, r, n, a);
    RunBase(cfg, r, n);
    PresentExactly(cfg, r, n, a);
    hide ValidRun, Base, LostClient, Parted, SameContent, Present, Matches;
    MatchedContent(r.states[n], a);
    if !LostClient(cfg, r, n, a) {
      ContentsExactly(cfg, r, n, a);
    }
  }

  /** After a tear, any write of the client that is no tear restores the agreement until the next tear. */
  lemma MatchesAgain(cfg: Config, r: Run, k: nat, n: nat, a: AppId)
    requires ValidRun(cfg, r) && k < n < |r.states| && ApprovedRecord(r.states[n], a)
    requires WritesAt(cfg, r, k, a) && ContentKept(cfg, r, k, n, a) && !LostClient(cfg, r, n, a)
    ensures SameContent(r.states[n], a)
  {
    assert |r.states| == |r.steps| + 1;
    hide ValidRun, LostClient, SameContent, ContentTorn, WritesAt;
    ApprovedMatches(cfg, r, n, a);
    assert forall i :: LastWrite(cfg, r, i, n, a) ==> i >= k;
  }

  // ---------------------------------------------------------------- secrets

  /**
   A secret shown to its owner is the one the remote server accepts if and only if the client is not lost and the
   last write of it was not a rotation whose secret was not stored.
   */
  lemma ViewedSecretIsLive(cfg: Config, r: Run, n: nat, env: Env, subject: string, id: AppId, confirmedAt: Time)
    requires ValidRun(cfg, r) && n < |r.states|
    requires P.ViewSecret(cfg, r.states[n].store, env, subject, id, confirmedAt).reply.Ok?
    ensures ApprovedRecord(r.states[n], id) && r.states[n].store.apps[id].owner == subject
    ensures confirmedAt != 0 && confirmedAt <= env.now <= confirmedAt + cfg.sensitiveWindow
    ensures var st, shown := r.states[n], P.ViewSecret(cfg, r.states[n].store, env, subject, id,
                                                       confirmedAt).reply.value;
            var c := st.store.apps[id].clientId;
            c in st.store.live && st.store.live[c].secret == shown
            <==> !LostClient(cfg, r, n, id) && !SecretParted(cfg, r, n, id)
  {
    RunBase(cfg, r, n);
    PresentExactly(cfg, r, n, id);
    hide ValidRun, LostClient, SecretParted, Base;
    Known(r.states[n], id);
    if !LostClient(cfg, r, n, id) {
      ContentsExactly(cfg, r, n, id);
    }
  }

  /** A rotation leaves the client without the token strategy and lifespans it was registered with. */
  lemma RotationDropsTokenPolicy(cfg: Config, st: State, step: Step)
    requires Base(st) && Allowed(st, step) && step.op.RotateSecret? && Rotates(cfg, st.store, step.env, step.op)
    requires st.store.apps[step.op.id].clientId in st.store.live
    ensures var c, live := st.store.apps[step.op.id].clientId, Apply(cfg, st, step).store.live;
            c in live && live[c].registration.policy == NoPolicy && live[c].secret == step.op.plaintext
  {
    Known(st, step.op.id);
    RotateShape(cfg, st.store, step);
    hide Base, StoreAfter;
  }

  /** Editing an approved application sends the token strategy and lifespans again, with the stored secret. */
  lemma EditRestoresTokenPolicy(cfg: Config, st: State, step: Step)
    requires Base(st) && Allowed(st, step) && step.op.UpdateDraft?
             && EditsRecord(cfg, st.store, step.env.faults, step.op)
    requires ApprovedRecord(st, step.op.id) && HydraCall !in step.env.faults
    requires st.store.apps[step.op.id].clientId in st.store.live
    ensures var app, live := st.store.apps[step.op.id], Apply(cfg, st, step).store.live;
            && app.clientId in live && live[app.clientId].registration.policy == StandardPolicy
            && Open(app.secret, Binding(app.id, app.clientId)) == Some(live[app.clientId].secret)
  {
    Known(st, step.op.id);
    EditShape(cfg, st.store, step);
    hide Base, StoreAfter, EnsureEligible;
  }

  /** The owner's edit puts the stored secret back into a client that has another. */
  predicate PutsBack(cfg: Config, st: State, step: Step, a: AppId) {
    step.op.UpdateDraft? && Writes(cfg, st.store, step, a) && !SecretLive(st, a)
  }

  /**
   In every reachable state, what changes a live client's secret is the owner's rotation within the confirmation
   window, or the owner's edit where the stored secret was not the live one.
   */
  lemma SecretChanges(cfg: Config, st: State, step: Step, a: AppId)
    requires Base(st) && Allowed(st, step) && Holds(st, a).Some? && Holds(st, a).value in st.store.live
    requires var c, live' := Holds(st, a).value, Apply(cfg, st, step).store.live;
             c in live' && live'[c].secret != st.store.live[c].secret
    ensures step.op.RotateSecret? || PutsBack(cfg, st, step, a)
    ensures step.op.RotateSecret? ==> step.op.id == a && Rotates(cfg, st.store, step.env, step.op)
    ensures step.op.RotateSecret? ==>
              && st.store.apps[a].owner == step.op.subject && step.op.confirmedAt != 0
              && step.op.confirmedAt <= step.env.now <= step.op.confirmedAt + cfg.sensitiveWindow
  {
    hide Base, EnsureEligible;
    if step.op.RunOnce? {
      PassKeepsClients(cfg, st, step, Holds(st, a).value);
    } else if a != step.op.id || a in st.cache {
      hide Apply;
      OpView(cfg, st, step, a);
    } else if Local(step.op) {
      hide Apply;
      LocalKeeps(cfg, st, step);
    } else {
      Known(st, a);
      OwnSecret(cfg, st, step);
    }
  }

  lemma PassKeepsClients(cfg: Config, st: State, step: Step, c: ClientId)
    requires Base(st) && Allowed(st, step) && step.op.RunOnce? && c in st.store.live
    ensures c in Apply(cfg, st, step).store.live && Apply(cfg, st, step).store.live[c] == st.store.live[c]
  {
    hide Apply, Base;
    Parts(st);
    if PassClaims(st, step) {
      PassShape(cfg, st, step);
    } else {
      PassIdle(cfg, st, step);
    }
  }

  /** An edit sends the stored secret, revocation and deletion change none, a rotation does so only within its guard. */
  lemma OwnSecret(cfg: Config, st: State, step: Step)
    requires Base(st) && Allowed(st, step) && !step.op.RunOnce? && !Local(step.op) && ApprovedRecord(st, step.op.id)
    requires Present(st, step.op.id)
    ensures var c, live' := st.store.apps[step.op.id].clientId, Apply(cfg, st, step).store.live;
            c in live' && live'[c].secret != st.store.live[c].secret ==>
              || (step.op.RotateSecret? && Rotates(cfg, st.store, step.env, step.op))
              || PutsBack(cfg, st, step, step.op.id)
  {
    Known(st, step.op.id);
    hide Base, EnsureEligible, Confirmed;
    match step.op
    case UpdateDraft(_, _, _, _, _, _) =>
      EditShape(cfg, st.store, step);
      hide StoreAfter;
    case RotateSecret(_, _, _, _, _, _) =>
      RotateShape(cfg, st.store, step);
      hide StoreAfter;
    case Revoke(_, _) =>
      RevokeShape(cfg, st.store, step);
      hide StoreAfter;
    case _ =>
      DeleteShape(cfg, st.store, step);
      hide StoreAfter;
  }

  // ---------------------------------------------------------------- work

  /** In every run an application is provisioning without an event exactly if some step was a work tear of it. */
  lemma {:induction false} StrandedExactly(cfg: Config, r: Run, n: nat, a: AppId)
    requires ValidRun(cfg, r) && n < |r.states|
    ensures Stranded(r.states[n], a) <==> exists i :: 0 <= i < n && WorkTorn(cfg, r.states[i].store, r.steps[i], a)
  {
    if n > 0 {
      StrandedExactly(cfg, r, n - 1, a);
      At(cfg, r, n - 1);
      hide Apply, Base, Allowed, Stranded, WorkTorn, ValidRun;
      StrandedStep(cfg, r.states[n - 1], r.steps[n - 1], a);
    }
  }

  function PendingEvents(o: Outbox, a: AppId): set<EventId> {
    set e | e in o.events && o.events[e].key == ProvisionKey(a) && o.events[e].completedAt.None?
  }

  /** An application's key is carried by one uncompleted event if it has pending work, and by none otherwise. */
  lemma PendingIsOne(st: State, a: AppId)
    requires Base(st)
    ensures |PendingEvents(st.store.outbox, a)| == if Pending(st.store.outbox, a) then 1 else 0
  {
    Parts(st);
    hide Base;
    var o := st.store.outbox;
    var p := PendingEvents(o, a);
    forall e | e in p ensures Queued(o, a) && e == o.byKey[ProvisionKey(a)] {
      assert EventOk(o, st.issued, e);
    }
    if Pending(o, a) {
      assert o.events[o.byKey[ProvisionKey(a)]].key == ProvisionKey(a);
      assert p == {o.byKey[ProvisionKey(a)]};
    } else {
      assert p == {};
    }
  }

  /**
   In every run at most one uncompleted event carries a key; a provisioning application has exactly one unless a work
   tear hit it.
   */
  lemma OneEventPerApplication(cfg: Config, r: Run, n: nat, a: AppId)
    requires ValidRun(cfg, r) && n < |r.states|
    ensures |PendingEvents(r.states[n].store.outbox, a)| <= 1
    ensures a in r.states[n].store.apps && r.states[n].store.apps[a].status.Provisioning? ==>
              (|PendingEvents(r.states[n].store.outbox, a)| == 1
               <==> forall i :: 0 <= i < n ==> !WorkTorn(cfg, r.states[i].store, r.steps[i], a))
  {
    RunBase(cfg, r, n);
    PendingIsOne(r.states[n], a);
    StrandedExactly(cfg, r, n, a);
    SuppliedExactly(r.states[n], a);
    hide Base, ValidRun, WorkTorn, PendingEvents;
  }

  // ---------------------------------------------------------------- no conflicts

  /** What CreateDraft, Submit and Approve answer. */
  function ErrorOf(cfg: Config, s: Store, step: Step): Option<Error> {
    var env := step.env;
    match step.op
    case CreateDraft(subject, standing, input, valid, id, eventId) =>
      Failure(P.CreateDraft(cfg, s, env, subject, standing, input, valid, id, eventId).reply)
    case Submit(subject, standing, id, eventId) => Failure(P.Submit(cfg, s, env, subject, standing, id, eventId).reply)
    case Approve(reviewer, access, id, reason, eventId) =>
      Failure(P.Approve(cfg, s, env, reviewer, access, id, reason, eventId).reply)
    case _ => None
  }

  function Failure<T>(r: Reply<T, Error>): Option<Error> {
    if r.Err? then Some(r.error) else None
  }

  /** From a draft without an event, starting neither finds its key taken nor its transition refused. */
  lemma StartsCleanly(s: Store, env: Env, subject: string, a: AppId, eventId: EventId)
    requires a in s.apps && s.apps[a].id == a && s.apps[a].status.Draft? && !Queued(s.outbox, a)
    ensures StartProvisioning(s, env, subject, s.apps[a], eventId).reply != Err(Conflicting)
  {
  }

  /** In every run, torn or not, no CreateDraft, Submit or Approve meets a taken identifier or a duplicate key. */
  lemma NoDuplicateKey(cfg: Config, r: Run, i: nat)
    requires ValidRun(cfg, r) && i < |r.steps|
    ensures ErrorOf(cfg, r.states[i].store, r.steps[i]) != Some(Conflicting)
  {
    At(cfg, r, i);
    hide ValidRun, Apply;
    NoConflict(cfg, r.states[i], r.steps[i]);
  }

  lemma NoConflict(cfg: Config, st: State, step: Step)
    requires Base(st) && Allowed(st, step)
    ensures ErrorOf(cfg, st.store, step) != Some(Conflicting)
  {
    hide StartProvisioning;
    var s, op, env := st.store, step.op, step.env;
    match op
    case CreateDraft(_, _, _, _, id, _) =>
      NotIssued(st, id);
      hide Base, EnsureEligible;
      var app := NewDraft(cfg, id, op.subject, op.input, env.now);
      StartsCleanly(Logged(s.(apps := s.apps[id := app]), env, op.subject, AppCreated, id), env, op.subject, id,
                    op.eventId);
    case Submit(_, _, id, _) =>
      if Submits(cfg, s, env.faults, op) {
        Known(st, id);
        var app := s.apps[id];
        var draft := if app.status.Draft? then app else app.(status := Draft, updatedAt := env.now);
        assert app.status.Draft? ==> s.apps == s.apps[id := draft];
        StartsCleanly(s.(apps := s.apps[id := draft]), env, op.subject, id, op.eventId);
      }
      hide Base;
    case Approve(_, _, id, _, _) =>
      if Approves(cfg, s, env, op) {
        Known(st, id);
      }
      hide Base;
    case _ =>
  }
}
