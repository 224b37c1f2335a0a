/** What `parton.env` can hold over batches and whole runs, crashes included. */
module EnvHistory {
  import opened Wrappers
  import opened Text
  import opened OrderedMap
  import opened EnvFile
  import opened EnvRewrite
  import opened Directives
  import opened AgentRuntime

  // ---- Orders carried out one after the other

  function Carried(os: seq<Order>, d: Disk): Disk {
    if os == [] then d
    else
      var before := Carried(os[..|os| - 1], d);
      Last(before, OrderSteps(os[|os| - 1], before))
  }

  /** The disk states on the way. */
  function Trail(os: seq<Order>, d: Disk): seq<Disk> {
    if os == [] then [] else Trail(os[..|os| - 1], d) + OrderSteps(os[|os| - 1], Carried(os[..|os| - 1], d))
  }

  /** The complete text that the `j`-th order writes, made from the text it found. */
  ghost predicate WrittenBy(text: string, os: seq<Order>, d: Disk, j: nat)
    requires j < |os|
  {
    var met, o := Carried(os[..j], d), os[j];
    && OrderSteps(o, met) != [] && met.target.Some? && NodeIdOf(Parse(met.target.value.text)) != ""
    && text == NewText(met.target.value.text, o.url, o.key, o.token)
  }

  ghost predicate Written(text: string, os: seq<Order>, d: Disk) {
    exists j :: 0 <= j < |os| && WrittenBy(text, os, d, j)
  }

  /** The file is there, and a crash leaves a text it could have left at the start, or one that an order wrote. */
  ghost predicate OldOrWritten(now: Disk, os: seq<Order>, d: Disk) {
    && (d.target.Some? ==> now.target.Some?)
    && forall text: string :: AfterCrash(now, text) ==> AfterCrash(d, text) || Written(text, os, d)
  }

  lemma OrderState(o: Order, d: Disk, n: nat, survivor: string)
    requires n < |OrderSteps(o, d)|
    ensures d.target.Some? && OrderSteps(o, d)[n].target.Some? && NodeIdOf(Parse(d.target.value.text)) != ""
    ensures AfterCrash(OrderSteps(o, d)[n], survivor) ==>
              AfterCrash(d, survivor) || survivor == NewText(d.target.value.text, o.url, o.key, o.token)
  {
    hide AfterCrash, Steps, Parse, NodeIdOf, NewText;
    OldOrNew(d, NewText(d.target.value.text, o.url, o.key, o.token), o.faults, n, survivor);
  }

  lemma LastNone(d: Disk)
    ensures Last(d, []) == d
  {
  }

  lemma WrittenSooner(text: string, os: seq<Order>, d: Disk)
    requires os != [] && Written(text, os[..|os| - 1], d)
    ensures Written(text, os, d)
  {
    hide WrittenBy;
    var init := os[..|os| - 1];
    var j :| 0 <= j < |init| && WrittenBy(text, init, d, j);
    WrittenSame(text, os, d, j);
  }

  lemma WrittenSame(text: string, os: seq<Order>, d: Disk, j: nat)
    requires j + 1 < |os| && WrittenBy(text, os[..|os| - 1], d, j)
    ensures WrittenBy(text, os, d, j)
  {
    hide Carried, OrderSteps, Parse, NodeIdOf, NewText;
    assert os[..|os| - 1][..j] == os[..j];
  }

  lemma SoonerOldOrWritten(now: Disk, os: seq<Order>, d: Disk)
    requires os != [] && OldOrWritten(now, os[..|os| - 1], d)
    ensures OldOrWritten(now, os, d)
  {
    hide AfterCrash, Written;
    forall text: string | AfterCrash(now, text) ensures AfterCrash(d, text) || Written(text, os, d) {
      if !AfterCrash(d, text) { WrittenSooner(text, os, d); }
    }
  }

  lemma LastOldOrWritten(os: seq<Order>, d: Disk, n: nat)
    requires os != []
    requires var init := os[..|os| - 1];
             OldOrWritten(Carried(init, d), init, d) && n < |OrderSteps(os[|os| - 1], Carried(init, d))|
    ensures OldOrWritten(OrderSteps(os[|os| - 1], Carried(os[..|os| - 1], d))[n], os, d)
  {
    var init, o := os[..|os| - 1], os[|os| - 1];
    var met := Carried(init, d);
    hide AfterCrash, Carried, OrderSteps, Parse, NodeIdOf, NewText;
    var now := OrderSteps(o, met)[n];
    OrderState(o, met, n, "");
    forall text: string | AfterCrash(now, text) ensures AfterCrash(d, text) || Written(text, os, d) {
      OrderState(o, met, n, text);
      if AfterCrash(met, text) {
        if !AfterCrash(d, text) { WrittenSooner(text, os, d); }
      } else {
        assert WrittenBy(text, os, d, |os| - 1);
      }
    }
  }

  /** Whatever the orders: at every state, and after a crash there, the file holds an old text or one they wrote. */
  lemma {:induction false} TrailOldOrWritten(os: seq<Order>, d: Disk)
    ensures OldOrWritten(Carried(os, d), os, d)
    ensures forall n :: 0 <= n < |Trail(os, d)| ==> OldOrWritten(Trail(os, d)[n], os, d)
  {
    OldIsOld(os, d);
    hide OldOrWritten, OrderSteps;
    if os != [] {
      var init, o := os[..|os| - 1], os[|os| - 1];
      var met := Carried(init, d);
      TrailOldOrWritten(init, d);
      forall n | 0 <= n < |OrderSteps(o, met)| ensures OldOrWritten(OrderSteps(o, met)[n], os, d) {
        LastOldOrWritten(os, d, n);
      }
      SoonerOldOrWritten(met, os, d);
      forall n | 0 <= n < |Trail(init, d)| ensures OldOrWritten(Trail(init, d)[n], os, d) {
        SoonerOldOrWritten(Trail(init, d)[n], os, d);
      }
      LastIsOneOf(met, OrderSteps(o, met));
    }
  }

  lemma LastIsOneOf(d: Disk, states: seq<Disk>)
    ensures Last(d, states) == if states == [] then d else states[|states| - 1]
  {
  }

  lemma OldIsOld(os: seq<Order>, d: Disk)
    ensures OldOrWritten(d, os, d)
  {
    hide AfterCrash, Written;
  }

  // ---- Batches and runs are orders carried out

  /** The orders that a batch gets to: all that it accepts, up to its end. */
  function BatchOrders(vs: seq<Verdict>, d: Disk): seq<Order> {
    if vs == [] then []
    else
      var init, last := vs[..|vs| - 1], vs[|vs| - 1];
      if ActAll(init, d).error.None? && last.Accept? then BatchOrders(init, d) + [last.order] else BatchOrders(init, d)
  }

  lemma {:induction false} BatchOrdersAccepted(vs: seq<Verdict>, d: Disk)
    ensures BatchOrders(vs, d) <= Orders(vs)
    ensures ActAll(vs, d).error.None? ==> BatchOrders(vs, d) == Orders(vs)
  {
    hide Enroll;
    if vs != [] {
      BatchOrdersAccepted(vs[..|vs| - 1], d);
    }
  }

  lemma EnrollDisk(o: Order, b: Batch)
    ensures Enroll(o, b).disk == Last(b.disk, OrderSteps(o, b.disk))
  {
    LastNone(b.disk);
    hide Rewrite, Last;
  }

  lemma OneMore(os: seq<Order>, o: Order, d: Disk)
    ensures Carried(os + [o], d) == Last(Carried(os, d), OrderSteps(o, Carried(os, d)))
    ensures Trail(os + [o], d) == Trail(os, d) + OrderSteps(o, Carried(os, d))
  {
    hide OrderSteps, Last;
    assert (os + [o])[..|os|] == os;
  }

  lemma {:induction false} BatchIsTrail(vs: seq<Verdict>, d: Disk)
    ensures BatchTrail(vs, d) == Trail(BatchOrders(vs, d), d)
    ensures ActAll(vs, d).disk == Carried(BatchOrders(vs, d), d)
  {
    hide Last, Enroll, OrderSteps;
    if vs != [] {
      var init, last := vs[..|vs| - 1], vs[|vs| - 1];
      var b := ActAll(init, d);
      BatchIsTrail(init, d);
      if b.error.None? && last.Accept? {
        EnrollDisk(last.order, b);
        OneMore(BatchOrders(init, d), last.order, d);
      }
    }
  }

  /** Over any batch, failing or not. */
  lemma BatchOldOrWritten(vs: seq<Verdict>, d: Disk, n: nat)
    requires n < |BatchTrail(vs, d)|
    ensures OldOrWritten(BatchTrail(vs, d)[n], BatchOrders(vs, d), d)
  {
    hide OldOrWritten, BatchOrders, BatchTrail, Trail, Carried, ActAll;
    BatchIsTrail(vs, d);
    TrailOldOrWritten(BatchOrders(vs, d), d);
  }

  lemma JoinedNone(a: seq<Order>, b: seq<Order>, d: Disk)
    requires b == []
    ensures Trail(a + b, d) == Trail(a, d) + Trail(b, Carried(a, d))
    ensures Carried(a + b, d) == Carried(b, Carried(a, d))
  {
    assert a + b == a;
    assert Trail(b, Carried(a, d)) == [] && Carried(b, Carried(a, d)) == Carried(a, d);
    hide Trail, Carried;
  }

  lemma JoinedMore(a: seq<Order>, b: seq<Order>, d: Disk)
    requires b != []
    requires var init := b[..|b| - 1];
             Trail(a + init, d) == Trail(a, d) + Trail(init, Carried(a, d))
             && Carried(a + init, d) == Carried(init, Carried(a, d))
    ensures Trail(a + b, d) == Trail(a, d) + Trail(b, Carried(a, d))
    ensures Carried(a + b, d) == Carried(b, Carried(a, d))
  {
    hide Last, OrderSteps, Trail, Carried;
    var init, last, mid := b[..|b| - 1], b[|b| - 1], Carried(a, d);
    OneMore(a + init, last, d);
    OneMore(init, last, mid);
    assert a + b == (a + init) + [last] && b == init + [last];
    Regroup(Trail(a, d), Trail(init, mid), OrderSteps(last, Carried(init, mid)));
  }

  lemma Regroup(x: seq<Disk>, y: seq<Disk>, z: seq<Disk>)
    ensures x + y + z == x + (y + z)
  {
  }

  lemma {:induction false} TrailJoined(a: seq<Order>, b: seq<Order>, d: Disk)
    ensures Trail(a + b, d) == Trail(a, d) + Trail(b, Carried(a, d))
    ensures Carried(a + b, d) == Carried(b, Carried(a, d))
  {
    hide Trail, Carried;
    if b == [] {
      JoinedNone(a, b, d);
    } else {
      TrailJoined(a, b[..|b| - 1], d);
      JoinedMore(a, b, d);
    }
  }

  /** The orders that an iteration carries out, or fails at. */
  function StepOrders(s: State, t: Tick): seq<Order> {
    if !t.buildOk || t.send.Rejected? || t.send.directives == [] || Setup(t.world).Err? then []
    else BatchOrders(Verdicts(t.world, Setup(t.world).value, t.send.directives), s.disk)
  }

  function RunOrders(s0: State, ticks: seq<Tick>, k: nat): seq<Order>
    requires k <= |ticks|
  {
    if k == 0 then [] else RunOrders(s0, ticks, k - 1) + StepOrders(StateAt(s0, ticks, k - 1), ticks[k - 1])
  }

  lemma StepDisk(s: State, t: Tick)
    ensures Step(s, t).state.disk
         == if t.buildOk && t.send.Accepted? then Apply(t.world, t.send.directives, s.disk).disk else s.disk
  {
    hide Apply, FromLookup, MainPost, FallbackPosts, FailMessage, DeadlineRepresentable, GraceFor, Renew;
  }

  lemma StepIsTrail(s: State, t: Tick)
    ensures StepTrail(s, t) == Trail(StepOrders(s, t), s.disk)
    ensures Step(s, t).state.disk == Carried(StepOrders(s, t), s.disk)
  {
    StepDisk(s, t);
    hide Step, Setup, Verdicts, BatchTrail, BatchOrders, ActAll;
    if t.buildOk && t.send.Accepted? && t.send.directives != [] && Setup(t.world).Ok? {
      BatchIsTrail(Verdicts(t.world, Setup(t.world).value, t.send.directives), s.disk);
    }
  }

  lemma TrailNone(d: Disk)
    ensures Trail([], d) == [] && Carried([], d) == d
  {
  }

  /** One more iteration. */
  lemma RunMore(s0: State, ticks: seq<Tick>, k: nat, os: seq<Order>)
    requires k < |ticks| && os == RunOrders(s0, ticks, k)
    requires RunTrail(s0, ticks, k) == Trail(os, s0.disk) && StateAt(s0, ticks, k).disk == Carried(os, s0.disk)
    ensures RunTrail(s0, ticks, k + 1) == Trail(RunOrders(s0, ticks, k + 1), s0.disk)
    ensures StateAt(s0, ticks, k + 1).disk == Carried(RunOrders(s0, ticks, k + 1), s0.disk)
  {
    hide Step, StepTrail, StepOrders, Trail, Carried;
    var s, t := StateAt(s0, ticks, k), ticks[k];
    StepIsTrail(s, t);
    TrailJoined(os, StepOrders(s, t), s0.disk);
  }

  lemma {:induction false} RunIsTrail(s0: State, ticks: seq<Tick>, k: nat)
    requires k <= |ticks|
    ensures RunTrail(s0, ticks, k) == Trail(RunOrders(s0, ticks, k), s0.disk)
    ensures StateAt(s0, ticks, k).disk == Carried(RunOrders(s0, ticks, k), s0.disk)
  {
    hide Step, StepTrail, StepOrders, Trail, Carried;
    TrailNone(s0.disk);
    if k > 0 {
      RunIsTrail(s0, ticks, k - 1);
      RunMore(s0, ticks, k - 1, RunOrders(s0, ticks, k - 1));
    }
  }

  /**
   * On every run, at every state of the disk and after a crash there: the file is still there, and holds a text it
   * could have held at the start, or the whole text that some order made from what it found.
   */
  lemma RunOldOrWritten(s0: State, ticks: seq<Tick>, k: nat, n: nat)
    requires k <= |ticks| && n < |RunTrail(s0, ticks, k)|
    ensures OldOrWritten(RunTrail(s0, ticks, k)[n], RunOrders(s0, ticks, k), s0.disk)
  {
    hide OldOrWritten, RunOrders, RunTrail, Trail, Carried, StateAt;
    RunIsTrail(s0, ticks, k);
    TrailOldOrWritten(RunOrders(s0, ticks, k), s0.disk);
  }

  // ---- What stays the same

  /** Every text the disk may be found with names this node. */
  ghost predicate Identified(d: Disk, id: string) {
    forall text: string :: AfterCrash(d, text) ==> NodeIdOf(Parse(text)) == id
  }

  /** Every text the disk may be found with gives a key this reading. */
  ghost predicate Reads(d: Disk, key: string, reading: Option<string>) {
    forall text: string :: AfterCrash(d, text) ==> Get(Parse(text), key) == reading
  }

  /** A file that is all on disk reads as its text, before and after a crash. */
  lemma SettledReads(text: string, mode: nat, key: string)
    ensures var d := Disk(Some(Inode(text, true, mode)), None, {});
            Identified(d, NodeIdOf(Parse(text))) && Reads(d, key, Get(Parse(text), key))
  {
    hide Parse, NodeIdOf, Get;
  }

  lemma OwnText(d: Disk)
    ensures d.target.Some? ==> AfterCrash(d, d.target.value.text)
  {
  }

  lemma OrderIdentified(o: Order, d: Disk, id: string, n: nat)
    requires Identified(d, id) && n < |OrderSteps(o, d)|
    ensures Identified(OrderSteps(o, d)[n], id)
  {
    hide AfterCrash, OrderSteps, Parse, NodeIdOf, NewText;
    OwnText(d);
    OrderState(o, d, n, "");
    NodeIdKept(d.target.value.text, o.url, o.key, o.token);
    forall text: string | AfterCrash(OrderSteps(o, d)[n], text) ensures NodeIdOf(Parse(text)) == id {
      OrderState(o, d, n, text);
    }
  }

  /** Its URL, normalised, its key and its token are single lines. */
  ghost predicate SingleLines(o: Order) {
    Lacks(HeartbeatUrl(o.url), '\n') && Lacks(Trim(o.key), '\n') && OneLine(o.token)
  }

  /** The keys that a rewrite sets. */
  predicate Managed(key: string) {
    Replaced(key) || key == NODE_ID || key == CELL_ID
  }

  lemma OthersKept(body: string, o: Order, key: string)
    requires NodeIdOf(Parse(body)) != "" && SingleLines(o) && !Managed(key)
    ensures Get(Parse(NewText(body, o.url, o.key, o.token)), key) == Get(Parse(body), key)
  {
    assert Expected(Parse(body), o.url, o.key, o.token, key) == Get(Parse(body), key);
    hide Parse, NodeIdOf, NewText, Get, HeartbeatUrl, Trim, OneLine, Expected;
    RereadExactly(body, o.url, o.key, o.token);
  }

  lemma OrderReads(o: Order, d: Disk, key: string, reading: Option<string>, n: nat)
    requires Reads(d, key, reading) && SingleLines(o) && !Managed(key) && n < |OrderSteps(o, d)|
    ensures Reads(OrderSteps(o, d)[n], key, reading)
  {
    hide AfterCrash, OrderSteps, Parse, NodeIdOf, NewText, Get, SingleLines, Managed;
    OwnText(d);
    OrderState(o, d, n, "");
    OthersKept(d.target.value.text, o, key);
    forall text: string | AfterCrash(OrderSteps(o, d)[n], text) ensures Get(Parse(text), key) == reading {
      OrderState(o, d, n, text);
    }
  }

  lemma {:induction false} TrailIdentified(os: seq<Order>, d: Disk, id: string)
    requires Identified(d, id)
    ensures Identified(Carried(os, d), id)
    ensures forall n :: 0 <= n < |Trail(os, d)| ==> Identified(Trail(os, d)[n], id)
  {
    hide Identified, OrderSteps;
    if os != [] {
      var init, o := os[..|os| - 1], os[|os| - 1];
      var met := Carried(init, d);
      TrailIdentified(init, d, id);
      forall n | 0 <= n < |OrderSteps(o, met)| ensures Identified(OrderSteps(o, met)[n], id) {
        OrderIdentified(o, met, id, n);
      }
      LastIsOneOf(met, OrderSteps(o, met));
    }
  }

  lemma {:induction false} TrailReads(os: seq<Order>, d: Disk, key: string, reading: Option<string>)
    requires Reads(d, key, reading) && !Managed(key) && forall i :: 0 <= i < |os| ==> SingleLines(os[i])
    ensures Reads(Carried(os, d), key, reading)
    ensures forall n :: 0 <= n < |Trail(os, d)| ==> Reads(Trail(os, d)[n], key, reading)
  {
    hide Reads, OrderSteps, SingleLines, Managed;
    if os != [] {
      var init, o := os[..|os| - 1], os[|os| - 1];
      var met := Carried(init, d);
      TrailReads(init, d, key, reading);
      forall n | 0 <= n < |OrderSteps(o, met)| ensures Reads(OrderSteps(o, met)[n], key, reading) {
        OrderReads(o, met, key, reading, n);
      }
      LastIsOneOf(met, OrderSteps(o, met));
    }
  }

  /** On every run, whatever is signed, applied, failing or crashing: the node id in the file never changes. */
  lemma NodeIdForever(s0: State, ticks: seq<Tick>, k: nat, id: string)
    requires k <= |ticks| && Identified(s0.disk, id)
    ensures Identified(StateAt(s0, ticks, k).disk, id)
    ensures forall n :: 0 <= n < |RunTrail(s0, ticks, k)| ==> Identified(RunTrail(s0, ticks, k)[n], id)
  {
    hide Identified, RunOrders, RunTrail, Trail, Carried, StateAt;
    RunIsTrail(s0, ticks, k);
    TrailIdentified(RunOrders(s0, ticks, k), s0.disk, id);
  }

  /**
   * On every run whose orders are single lines, at every state and after a crash there: each key that the rewrite does
   * not set reads as it did at the start.
   */
  lemma OtherKeysForever(s0: State, ticks: seq<Tick>, k: nat, key: string, reading: Option<string>)
    requires k <= |ticks| && Reads(s0.disk, key, reading) && !Managed(key)
    requires forall i :: 0 <= i < |RunOrders(s0, ticks, k)| ==> SingleLines(RunOrders(s0, ticks, k)[i])
    ensures Reads(StateAt(s0, ticks, k).disk, key, reading)
    ensures forall n :: 0 <= n < |RunTrail(s0, ticks, k)| ==> Reads(RunTrail(s0, ticks, k)[n], key, reading)
  {
    hide Reads, SingleLines, Managed, RunOrders, RunTrail, Trail, Carried, StateAt;
    RunIsTrail(s0, ticks, k);
    TrailReads(RunOrders(s0, ticks, k), s0.disk, key, reading);
  }
}
