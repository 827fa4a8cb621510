/** The subnet step of the network saga, subnet by subnet: each subnet is created after its own security list, and
    the lists are deleted after all subnets. */
module SubnetStep {
  import opened Optional
  import opened CloudCall

  /** What the spec says of a subnet. */
  datatype Wanted = Wanted(skip: bool, securityList: bool)

  /** What there is of a subnet: itself, the security lists under the name of its list, and the identifier of a
      list that the spec has recorded. */
  datatype Cell = Cell(subnet: bool, lists: set<nat>, recorded: Option<nat>)

  /** The answers to the calls made for one subnet.  `listId` is the identifier of a new list, `shown` the list
      that a listing by name comes up with. */
  datatype Reply = Reply(
    lookupOk: bool,
    listLookupOk: bool,
    createList: Call,
    listId: nat,
    createSubnet: Call,
    updateOk: bool,
    deleteSubnet: Call,
    shown: nat,
    deleteList: Call)

  // ---- One subnet ------------------------------------------------------------------------------------

  function AddList(c: Cell, r: Reply): Cell {
    if r.createList.Done? then c.(lists := c.lists + {r.listId}, recorded := Some(r.listId))
    else if r.createList.effect then c.(lists := c.lists + {r.listId})
    else c
  }

  function AddSubnet(c: Cell, r: Reply): Cell {
    c.(subnet := c.subnet || Happens(r.createSubnet))
  }

  /** The list that a lookup finds: by identifier if one is recorded, else by name. */
  function Found(c: Cell, r: Reply): set<nat> {
    c.lists * {if c.recorded.Some? then c.recorded.value else r.shown}
  }

  /** A list found by name is not recorded, and without its identifier the subnet cannot be updated. */
  function UpdateOne(w: Wanted, c: Cell, r: Reply): (Cell, bool) {
    if !w.securityList then (c, r.updateOk)
    else if !r.listLookupOk || (c.recorded.Some? && Found(c, r) == {}) then (c, false)
    else if Found(c, r) != {} then (c, c.recorded.Some? && r.updateOk)
    else (AddList(c, r), r.createList.Done? && r.updateOk)
  }

  function MakeOne(w: Wanted, c: Cell, r: Reply): (Cell, bool) {
    if !w.securityList then (AddSubnet(c, r), r.createSubnet.Done?)
    else if !r.createList.Done? then (AddList(c, r), false)
    else (AddSubnet(AddList(c, r), r), r.createSubnet.Done?)
  }

  function CreateOne(w: Wanted, c: Cell, r: Reply): (Cell, bool) {
    if w.skip then (c, true)
    else if !r.lookupOk then (c, false)
    else if c.subnet then UpdateOne(w, c, r)
    else MakeOne(w, c, r)
  }

  function DeleteOne(w: Wanted, c: Cell, r: Reply): (Cell, bool) {
    if w.skip then (c, true)
    else if !r.lookupOk then (c, false)
    else if !c.subnet then (c, true)
    else (c.(subnet := !Happens(r.deleteSubnet)), r.deleteSubnet.Done?)
  }

  function DeleteListOne(w: Wanted, c: Cell, r: Reply): (Cell, bool) {
    if !w.securityList then (c, true)
    else if !r.listLookupOk then (c, false)
    else if Found(c, r) == {} then (c, true)
    else (if Happens(r.deleteList) then c.(lists := c.lists - Found(c, r)) else c, r.deleteList.Done?)
  }

  // ---- The loops -------------------------------------------------------------------------------------

  type Job = (Wanted, Cell, Reply) -> (Cell, bool)

  /** The first `n` subnets in order, up to the first failure. */
  function Loop(job: Job, ws: seq<Wanted>, cs: seq<Cell>, rs: seq<Reply>, n: nat): (r: (seq<Cell>, bool))
    requires n <= |ws| == |cs| == |rs|
    ensures |r.0| == |cs|
  {
    if n == 0 then (cs, true)
    else
      var (done, ok) := Loop(job, ws, cs, rs, n - 1);
      if !ok then (done, false)
      else
        var (c, k) := job(ws[n - 1], done[n - 1], rs[n - 1]);
        (done[n - 1 := c], k)
  }

  class SubnetScope {
    const ws: seq<Wanted>
    var cs: seq<Cell>

    constructor (ws: seq<Wanted>, cs: seq<Cell>)
      ensures this.ws == ws && this.cs == cs
    {
      this.ws, this.cs := ws, cs;
    }

    method ReconcileOne(i: nat, r: Reply) returns (ok: bool)
      requires |cs| == |ws| && i < |ws|
      modifies this
      ensures (cs, ok) == (old(cs)[i := CreateOne(ws[i], old(cs)[i], r).0], CreateOne(ws[i], old(cs)[i], r).1)
    {
      assert cs[i := cs[i]] == cs;
      if ws[i].skip {
        return true;
      }
      if !r.lookupOk {
        return false;
      }
      if cs[i].subnet {
        if ws[i].securityList {
          if !r.listLookupOk || (cs[i].recorded.Some? && Found(cs[i], r) == {}) {
            return false;
          }
          if Found(cs[i], r) == {} {
            cs := cs[i := AddList(cs[i], r)];
            if !r.createList.Done? {
              return false;
            }
          } else if cs[i].recorded.None? {
            return false;
          }
        }
        return r.updateOk;
      }
      if ws[i].securityList {
        cs := cs[i := AddList(cs[i], r)];
        if !r.createList.Done? {
          return false;
        }
      }
      cs := cs[i := AddSubnet(cs[i], r)];
      assert cs == old(cs)[i := cs[i]];
      return r.createSubnet.Done?;
    }

    method ReconcileSubnet(rs: seq<Reply>) returns (ok: bool)
      requires |cs| == |ws| == |rs|
      modifies this
      ensures (cs, ok) == Loop(CreateOne, ws, old(cs), rs, |ws|)
    {
      for i := 0 to |ws|
        invariant (cs, true) == Loop(CreateOne, ws, old(cs), rs, i)
      {
        ok := ReconcileOne(i, rs[i]);
        if !ok {
          LoopStops(CreateOne, ws, old(cs), rs, i + 1, |ws|);
          return;
        }
      }
      ok := true;
    }

    method DeleteSubnets(rs: seq<Reply>) returns (ok: bool)
      requires |cs| == |ws| == |rs|
      modifies this
      ensures (cs, ok) == Loop(DeleteOne, ws, old(cs), rs, |ws|)
    {
      for i := 0 to |ws|
        invariant (cs, true) == Loop(DeleteOne, ws, old(cs), rs, i)
      {
        assert cs[i := cs[i]] == cs;
        if ws[i].skip {
          continue;
        }
        if rs[i].lookupOk && !cs[i].subnet {
          continue;
        }
        ok := rs[i].lookupOk && rs[i].deleteSubnet.Done?;
        if rs[i].lookupOk {
          cs := cs[i := cs[i].(subnet := !Happens(rs[i].deleteSubnet))];
        }
        if !ok {
          LoopStops(DeleteOne, ws, old(cs), rs, i + 1, |ws|);
          return;
        }
      }
      ok := true;
    }

    method DeleteSecurityLists(rs: seq<Reply>) returns (ok: bool)
      requires |cs| == |ws| == |rs|
      modifies this
      ensures (cs, ok) == Loop(DeleteListOne, ws, old(cs), rs, |ws|)
    {
      for i := 0 to |ws|
        invariant (cs, true) == Loop(DeleteListOne, ws, old(cs), rs, i)
      {
        assert cs[i := cs[i]] == cs;
        if !ws[i].securityList {
          continue;
        }
        if rs[i].listLookupOk && Found(cs[i], rs[i]) == {} {
          continue;
        }
        ok := rs[i].listLookupOk && rs[i].deleteList.Done?;
        if rs[i].listLookupOk && Happens(rs[i].deleteList) {
          cs := cs[i := cs[i].(lists := cs[i].lists - Found(cs[i], rs[i]))];
        }
        if !ok {
          LoopStops(DeleteListOne, ws, old(cs), rs, i + 1, |ws|);
          return;
        }
      }
      ok := true;
    }
  }

  lemma {:induction false} LoopStops(job: Job, ws: seq<Wanted>, cs: seq<Cell>, rs: seq<Reply>, m: nat, n: nat)
    requires m <= n <= |ws| == |cs| == |rs| && !Loop(job, ws, cs, rs, m).1
    ensures Loop(job, ws, cs, rs, n) == Loop(job, ws, cs, rs, m)
  {
    if m < n {
      LoopStops(job, ws, cs, rs, m, n - 1);
    }
  }

  /** Each cell is what the job made of it, or as it was; after success the job was done and done well on each. */
  lemma {:induction false} LoopEach(job: Job, ws: seq<Wanted>, cs: seq<Cell>, rs: seq<Reply>, n: nat, i: nat)
    requires n <= |ws| == |cs| == |rs| && i < |cs|
    ensures Loop(job, ws, cs, rs, n).0[i] in {cs[i], job(ws[i], cs[i], rs[i]).0}
    ensures i >= n ==> Loop(job, ws, cs, rs, n).0[i] == cs[i]
    ensures i < n && Loop(job, ws, cs, rs, n).1 ==>
      job(ws[i], cs[i], rs[i]) == (Loop(job, ws, cs, rs, n).0[i], true)
  {
    if n > 0 {
      LoopEach(job, ws, cs, rs, n - 1, i);
    }
  }

  // ---- Passes ----------------------------------------------------------------------------------------

  /** A create pass, or a delete pass: `between` says whether the route tables, which go between the subnets and
      their lists, were deleted.  A lost patch takes the newly recorded identifiers with it. */
  datatype Event =
    | CreatePass(rs: seq<Reply>, patchOk: bool)
    | DeletePass(rs: seq<Reply>, between: bool, lists: seq<Reply>, patchOk: bool)

  predicate Fits(ws: seq<Wanted>, e: Event) {
    |e.rs| == |ws| && (e.DeletePass? ==> |e.lists| == |ws|)
  }

  function Stored(before: seq<Cell>, after: seq<Cell>, patchOk: bool): (r: seq<Cell>)
    requires |before| == |after|
    ensures |r| == |after|
  {
    if patchOk then after
    else seq(|after|, i requires 0 <= i < |after| => after[i].(recorded := before[i].recorded))
  }

  function AfterDelete(ws: seq<Wanted>, cs: seq<Cell>, e: Event): (r: (seq<Cell>, bool))
    requires e.DeletePass? && Fits(ws, e) && |ws| == |cs|
    ensures |r.0| == |cs|
  {
    var (gone, ok) := Loop(DeleteOne, ws, cs, e.rs, |ws|);
    if !ok || !e.between then (gone, false) else Loop(DeleteListOne, ws, gone, e.lists, |ws|)
  }

  function Apply(ws: seq<Wanted>, cs: seq<Cell>, e: Event): (r: seq<Cell>)
    requires Fits(ws, e) && |ws| == |cs|
    ensures |r| == |cs|
  {
    match e
    case CreatePass(rs, patchOk) => Stored(cs, Loop(CreateOne, ws, cs, rs, |ws|).0, patchOk)
    case DeletePass(_, _, _, patchOk) => Stored(cs, AfterDelete(ws, cs, e).0, patchOk)
  }

  function Empty(ws: seq<Wanted>): (r: seq<Cell>)
    ensures |r| == |ws|
  {
    seq(|ws|, _ => Cell(false, {}, None))
  }

  function Exec(ws: seq<Wanted>, run: seq<Event>): (r: seq<Cell>)
    requires forall e :: e in run ==> Fits(ws, e)
    ensures |r| == |ws|
  {
    if run == [] then Empty(ws) else Apply(ws, Exec(ws, run[..|run| - 1]), run[|run| - 1])
  }

  // ---- A subnet keeps its security list ----------------------------------------------------------------

  predicate Tied(w: Wanted, c: Cell) {
    && (c.subnet && w.securityList ==> c.lists != {})
    && (w.skip ==> !c.subnet)
  }

  ghost predicate AllTied(ws: seq<Wanted>, cs: seq<Cell>) {
    |ws| == |cs| && forall i :: 0 <= i < |ws| ==> Tied(ws[i], cs[i])
  }

  lemma CreateTied(w: Wanted, c: Cell, r: Reply)
    requires Tied(w, c)
    ensures Tied(w, CreateOne(w, c, r).0)
  {
    if r.createList.Done? {
      assert r.listId in AddList(c, r).lists;
    }
  }

  /** The lists are deleted only after all subnets are. */
  lemma DeleteTied(ws: seq<Wanted>, cs: seq<Cell>, e: Event)
    requires e.DeletePass? && Fits(ws, e) && AllTied(ws, cs)
    ensures AllTied(ws, AfterDelete(ws, cs, e).0)
  {
    var (gone, ok) := Loop(DeleteOne, ws, cs, e.rs, |ws|);
    forall i | 0 <= i < |ws| ensures Tied(ws[i], AfterDelete(ws, cs, e).0[i]) {
      LoopEach(DeleteOne, ws, cs, e.rs, |ws|, i);
      if ok && e.between {
        LoopEach(DeleteListOne, ws, gone, e.lists, |ws|, i);
        assert !gone[i].subnet;
      }
    }
  }

  lemma ApplyTied(ws: seq<Wanted>, cs: seq<Cell>, e: Event)
    requires Fits(ws, e) && AllTied(ws, cs)
    ensures AllTied(ws, Apply(ws, cs, e))
  {
    match e
    case CreatePass(rs, _) =>
      forall i | 0 <= i < |ws| ensures Tied(ws[i], Loop(CreateOne, ws, cs, rs, |ws|).0[i]) {
        LoopEach(CreateOne, ws, cs, rs, |ws|, i);
        CreateTied(ws[i], cs[i], rs[i]);
      }
    case DeletePass(_, _, _, _) => DeleteTied(ws, cs, e);
  }

  /** Over every run of create and delete passes, failing anywhere and losing any patch, a subnet that wants a
      security list has one of its own as long as it exists. */
  lemma {:induction false} ListOutlivesSubnet(ws: seq<Wanted>, run: seq<Event>)
    requires forall e :: e in run ==> Fits(ws, e)
    ensures AllTied(ws, Exec(ws, run))
  {
    if run != [] {
      ListOutlivesSubnet(ws, run[..|run| - 1]);
      assert run[|run| - 1] in run;
      ApplyTied(ws, Exec(ws, run[..|run| - 1]), run[|run| - 1]);
    }
  }

  /** New identifiers are new, and a listing by name shows a list if there is one. */
  predicate Honest(c: Cell, r: Reply) {
    r.listId !in c.lists && (c.lists != {} ==> r.shown in c.lists)
  }

  predicate AllHonest(cs: seq<Cell>, rs: seq<Reply>) {
    |cs| == |rs| && forall i :: 0 <= i < |cs| ==> Honest(cs[i], rs[i])
  }

  /** A subnet can exist before another subnet's list does: the two classes are made in turn. */
  lemma ListsIncomplete() returns (ws: seq<Wanted>, e: Event, i: nat, j: nat)
    ensures Fits(ws, e) && AllHonest(Empty(ws), e.rs) && i < |ws| && j < |ws|
    ensures Exec(ws, [e])[i].subnet && ws[j].securityList && !ws[j].skip && Exec(ws, [e])[j].lists == {}
  {
    var w, works := Wanted(false, true), AllDone(0, 0);
    var fails := works.(createList := Fails(false));
    ws, e, i, j := [w, w], CreatePass([works, fails], true), 0, 1;
    ExecOne(ws, [], e);
    assert [] + [e] == [e] && Exec(ws, []) == Empty(ws);
    var none, one := Cell(false, {}, None), Cell(true, {0}, Some(0));
    assert none.lists + {0} == one.lists;
    assert Empty(ws) == [none, none];
    assert Loop(CreateOne, ws, Empty(ws), e.rs, 0) == ([none, none], true);
    assert Loop(CreateOne, ws, Empty(ws), e.rs, 1) == ([none, none][0 := one], true);
    assert Exec(ws, [e])[0] == one && Exec(ws, [e])[1] == none;
  }

  // ---- Whether a pass completes --------------------------------------------------------------------------

  /** The list of an existing subnet is not recorded, or no longer there under its recorded identifier. */
  predicate Stuck(w: Wanted, c: Cell) {
    !w.skip && w.securityList && c.subnet && (c.recorded.None? || c.recorded.value !in c.lists)
  }

  predicate ErrorFree(r: Reply) {
    r.lookupOk && r.listLookupOk && r.createList.Done? && r.createSubnet.Done? && r.updateOk
  }

  lemma CompletesOneIff(w: Wanted, c: Cell, r: Reply)
    requires Tied(w, c) && Honest(c, r) && ErrorFree(r)
    ensures CreateOne(w, c, r).1 <==> !Stuck(w, c)
  {
    var id := if c.recorded.Some? then c.recorded.value else r.shown;
    assert id in c.lists <==> id in Found(c, r);
  }

  lemma {:induction false} LoopOkIff(job: Job, ws: seq<Wanted>, cs: seq<Cell>, rs: seq<Reply>, n: nat)
    requires n <= |ws| == |cs| == |rs|
    ensures Loop(job, ws, cs, rs, n).1 <==> forall i :: 0 <= i < n ==> job(ws[i], cs[i], rs[i]).1
  {
    if n > 0 {
      LoopOkIff(job, ws, cs, rs, n - 1);
      LoopEach(job, ws, cs, rs, n - 1, n - 1);
    }
  }

  /** An error-free create pass completes the step exactly when no subnet is stuck. */
  lemma CompletesIff(ws: seq<Wanted>, cs: seq<Cell>, rs: seq<Reply>)
    requires AllTied(ws, cs) && AllHonest(cs, rs) && forall r :: r in rs ==> ErrorFree(r)
    ensures Loop(CreateOne, ws, cs, rs, |ws|).1 <==> forall i :: 0 <= i < |ws| ==> !Stuck(ws[i], cs[i])
  {
    LoopOkIff(CreateOne, ws, cs, rs, |ws|);
    forall i | 0 <= i < |ws| ensures CreateOne(ws[i], cs[i], rs[i]).1 <==> !Stuck(ws[i], cs[i]) {
      assert rs[i] in rs;
      CompletesOneIff(ws[i], cs[i], rs[i]);
    }
  }

  lemma StuckStays(w: Wanted, c: Cell, r: Reply)
    requires Stuck(w, c) && Tied(w, c) && Honest(c, r)
    ensures CreateOne(w, c, r) == (c, false)
  {
    var id := if c.recorded.Some? then c.recorded.value else r.shown;
    assert id in c.lists <==> id in Found(c, r);
  }

  lemma StuckPass(ws: seq<Wanted>, cs: seq<Cell>, e: Event, i: nat)
    requires e.CreatePass? && Fits(ws, e) && AllTied(ws, cs) && AllHonest(cs, e.rs)
    requires i < |ws| && Stuck(ws[i], cs[i])
    ensures Apply(ws, cs, e)[i] == cs[i]
  {
    LoopEach(CreateOne, ws, cs, e.rs, |ws|, i);
    StuckStays(ws[i], cs[i], e.rs[i]);
  }

  /** Create passes from some state on, each answered honestly. */
  ghost predicate HonestCreates(ws: seq<Wanted>, cs: seq<Cell>, run: seq<Event>)
    requires |cs| == |ws|
    decreases |run|
  {
    run == [] ||
    (&& run[0].CreatePass? && Fits(ws, run[0]) && AllHonest(cs, run[0].rs)
     && HonestCreates(ws, Apply(ws, cs, run[0]), run[1..]))
  }

  ghost function ExecFrom(ws: seq<Wanted>, cs: seq<Cell>, run: seq<Event>): (r: seq<Cell>)
    requires |cs| == |ws| && HonestCreates(ws, cs, run)
    ensures |r| == |ws|
    decreases |run|
  {
    if run == [] then cs else ExecFrom(ws, Apply(ws, cs, run[0]), run[1..])
  }

  /** A stuck subnet stays as it is through every create pass, error-free ones included. */
  lemma {:induction false} StuckForever(ws: seq<Wanted>, cs: seq<Cell>, run: seq<Event>, i: nat)
    requires AllTied(ws, cs) && HonestCreates(ws, cs, run) && i < |ws| && Stuck(ws[i], cs[i])
    ensures ExecFrom(ws, cs, run)[i] == cs[i]
    decreases |run|
  {
    if run != [] {
      StuckPass(ws, cs, run[0], i);
      ApplyTied(ws, cs, run[0]);
      StuckForever(ws, Apply(ws, cs, run[0]), run[1..], i);
    }
  }

  /** One lost patch gets a subnet stuck. */
  lemma LostListPatch() returns (ws: seq<Wanted>, e: Event)
    ensures Fits(ws, e) && AllHonest(Empty(ws), e.rs) && (forall r :: r in e.rs ==> ErrorFree(r))
    ensures exists i :: 0 <= i < |ws| && Stuck(ws[i], Exec(ws, [e])[i])
  {
    ws, e := [Wanted(false, true)], CreatePass([AllDone(0, 0)], false);
    ExecOne(ws, [], e);
    assert [] + [e] == [e] && Exec(ws, []) == Empty(ws) == [Cell(false, {}, None)];
    LoopOne(CreateOne, ws[0], Cell(false, {}, None), AllDone(0, 0));
    assert Exec(ws, [e])[0].subnet && Exec(ws, [e])[0].recorded.None?;
  }

  /** What the spec asks for is there, and the list is recorded. */
  predicate Complete(w: Wanted, c: Cell) {
    !w.skip ==> c.subnet && (w.securityList ==> c.recorded.Some? && c.recorded.value in c.lists)
  }

  lemma CompleteOneMeans(w: Wanted, c: Cell, r: Reply)
    requires CreateOne(w, c, r).1
    ensures Complete(w, CreateOne(w, c, r).0) && (w.skip ==> CreateOne(w, c, r).0 == c)
  {
    if Found(c, r) != {} {
      var id :| id in Found(c, r);
    }
    assert r.listId in c.lists + {r.listId};
  }

  /** A create pass that completes has made and recorded all that is wanted, and has left skipped subnets alone. */
  lemma CompleteMeans(ws: seq<Wanted>, cs: seq<Cell>, rs: seq<Reply>, i: nat)
    requires i < |ws| == |cs| == |rs| && Loop(CreateOne, ws, cs, rs, |ws|).1
    ensures var c := Loop(CreateOne, ws, cs, rs, |ws|).0[i]; Complete(ws[i], c) && (ws[i].skip ==> c == cs[i])
  {
    LoopEach(CreateOne, ws, cs, rs, |ws|, i);
    CompleteOneMeans(ws[i], cs[i], rs[i]);
  }

  /** A delete pass that completes has deleted every subnet that is not skipped. */
  lemma DeleteMeans(ws: seq<Wanted>, cs: seq<Cell>, e: Event)
    requires e.DeletePass? && Fits(ws, e) && |ws| == |cs| && AfterDelete(ws, cs, e).1
    ensures forall i | 0 <= i < |ws| :: AfterDelete(ws, cs, e).0[i].subnet == (ws[i].skip && cs[i].subnet)
  {
    var gone := Loop(DeleteOne, ws, cs, e.rs, |ws|).0;
    forall i | 0 <= i < |ws| ensures AfterDelete(ws, cs, e).0[i].subnet == (ws[i].skip && cs[i].subnet) {
      LoopEach(DeleteOne, ws, cs, e.rs, |ws|, i);
      LoopEach(DeleteListOne, ws, gone, e.lists, |ws|, i);
    }
  }

  /** A delete pass without errors completes, whatever there is. */
  lemma DeleteCompletes(ws: seq<Wanted>, cs: seq<Cell>, e: Event)
    requires e.DeletePass? && Fits(ws, e) && |ws| == |cs| && e.between
    requires forall r :: r in e.rs ==> r.lookupOk && r.deleteSubnet.Done?
    requires forall r :: r in e.lists ==> r.listLookupOk && r.deleteList.Done?
    ensures AfterDelete(ws, cs, e).1
  {
    var gone := Loop(DeleteOne, ws, cs, e.rs, |ws|).0;
    LoopOkIff(DeleteOne, ws, cs, e.rs, |ws|);
    LoopOkIff(DeleteListOne, ws, gone, e.lists, |ws|);
    assert forall i :: 0 <= i < |ws| ==> e.rs[i] in e.rs && e.lists[i] in e.lists;
  }

  // ---- Whether deletion leaves lists behind --------------------------------------------------------------

  predicate Single(c: Cell) {
    |c.lists| <= 1 && (c.recorded.Some? ==> c.recorded.value in c.lists)
  }

  lemma SingleIs(c: Cell, id: nat)
    requires Single(c) && id in c.lists
    ensures c.lists == {id}
  {
    assert |c.lists - {id}| == 0;
  }

  function AllDone(id: nat, shown: nat): Reply {
    Reply(true, true, Done, id, Done, true, Done, shown, Done)
  }

  /** A pass can make a second list for a subnet exactly when there is a list and no subnet: the code then makes
      a list without looking for one. */
  lemma SecondListIff(w: Wanted, c: Cell)
    requires Single(c) && Tied(w, c)
    ensures (exists r: Reply :: Honest(c, r) && |CreateOne(w, c, r).0.lists| > 1) <==>
      !w.skip && w.securityList && !c.subnet && c.lists != {}
  {
    if c.lists != {} {
      var id :| id in c.lists;
      SingleIs(c, id);
      var r := AllDone(id + 1, id);
      if !w.skip && w.securityList && !c.subnet {
        assert CreateOne(w, c, r).0.lists == {id, id + 1};
        assert |{id, id + 1}| == 2;
        assert Honest(c, r);
      }
    } else {
      forall r: Reply ensures |CreateOne(w, c, r).0.lists| <= 1 {
        assert CreateOne(w, c, r).0.lists in {{}, {r.listId}};
      }
    }
  }

  /** Deleting a list leaves none exactly when there was no second one. */
  lemma LeftListsIff(w: Wanted, c: Cell, r: Reply)
    requires w.securityList && Honest(c, r) && DeleteListOne(w, c, r).1
    requires c.recorded.Some? && c.lists != {} ==> c.recorded.value in c.lists
    ensures DeleteListOne(w, c, r).0.lists == {} <==> |c.lists| <= 1
  {
    if |c.lists| == 1 {
      var id := if c.recorded.Some? then c.recorded.value else r.shown;
      assert id in c.lists;
      SingleIs(c, id);
    } else if |c.lists| > 1 {
      var id := if c.recorded.Some? then c.recorded.value else r.shown;
      assert id in c.lists;
      assert Found(c, r) == {id};
      assert |c.lists - {id}| == |c.lists| - 1;
    }
  }

  /** A list that is made is reported made, and its subnet is made with it. */
  predicate Together(r: Reply) {
    Happens(r.createList) ==> r.createList.Done? && Happens(r.createSubnet)
  }

  predicate Paired(w: Wanted, c: Cell) {
    Single(c) && Tied(w, c) && (c.lists != {} ==> c.subnet && w.securityList)
  }

  lemma CreatePairs(w: Wanted, c: Cell, r: Reply)
    requires Paired(w, c) && Honest(c, r) && Together(r)
    ensures Paired(w, CreateOne(w, c, r).0)
    ensures Paired(w, CreateOne(w, c, r).0.(recorded := c.recorded))
  {
    if c.lists == {} {
      assert CreateOne(w, c, r).0.lists in {{}, {r.listId}};
    }
  }

  ghost predicate AllPaired(ws: seq<Wanted>, cs: seq<Cell>) {
    |ws| == |cs| && forall i :: 0 <= i < |ws| ==> Paired(ws[i], cs[i])
  }

  /** Create passes in which no list is made without its subnet. */
  ghost predicate Smooth(ws: seq<Wanted>, run: seq<Event>)
    requires forall e :: e in run ==> Fits(ws, e)
  {
    forall i :: 0 <= i < |run| ==>
      && run[i].CreatePass? && AllHonest(Exec(ws, run[..i]), run[i].rs)
      && forall r :: r in run[i].rs ==> Together(r)
  }

  lemma CreatePassPairs(ws: seq<Wanted>, cs: seq<Cell>, e: Event)
    requires e.CreatePass? && Fits(ws, e) && AllPaired(ws, cs) && AllHonest(cs, e.rs)
    requires forall r :: r in e.rs ==> Together(r)
    ensures AllPaired(ws, Apply(ws, cs, e))
  {
    forall i | 0 <= i < |ws| ensures Paired(ws[i], Apply(ws, cs, e)[i]) {
      LoopEach(CreateOne, ws, cs, e.rs, |ws|, i);
      assert e.rs[i] in e.rs;
      CreatePairs(ws[i], cs[i], e.rs[i]);
    }
  }

  lemma {:induction false} SmoothPairs(ws: seq<Wanted>, run: seq<Event>)
    requires (forall e :: e in run ==> Fits(ws, e)) && Smooth(ws, run)
    ensures AllPaired(ws, Exec(ws, run))
  {
    if run != [] {
      var n := |run| - 1;
      assert Smooth(ws, run[..n]) by {
        forall i | 0 <= i < n ensures run[..n][..i] == run[..i] && run[..n][i] == run[i] {}
      }
      SmoothPairs(ws, run[..n]);
      assert run[..n] == run[..|run| - 1];
      CreatePassPairs(ws, Exec(ws, run[..n]), run[n]);
    }
  }

  /** At most one list, which a lookup finds. */
  predicate Findable(w: Wanted, c: Cell) {
    |c.lists| <= 1 && (c.lists != {} ==> w.securityList && (c.recorded.Some? ==> c.recorded.value in c.lists))
  }

  ghost predicate AllFindable(ws: seq<Wanted>, cs: seq<Cell>) {
    |ws| == |cs| && forall i :: 0 <= i < |ws| ==> Findable(ws[i], cs[i])
  }

  lemma DeleteListFindable(w: Wanted, c: Cell, r: Reply)
    requires Findable(w, c)
    ensures Findable(w, DeleteListOne(w, c, r).0)
  {
    if Found(c, r) != {} {
      var id :| id in Found(c, r);
      assert |c.lists - {id}| == 0;
    }
  }

  /** `gone` is the cell without its subnet, perhaps, and `c` that without its list, perhaps. */
  predicate IsOrWasDeleted(w: Wanted, before: Cell, r: Reply, gone: Cell, c: Cell) {
    gone == before.(subnet := gone.subnet) && c in {gone, DeleteListOne(w, gone, r).0}
  }

  /** What a delete pass leaves of a cell, wherever it stops. */
  lemma DeletedCell(ws: seq<Wanted>, cs: seq<Cell>, e: Event, i: nat)
    requires e.DeletePass? && Fits(ws, e) && |ws| == |cs| && i < |ws|
    ensures var c := AfterDelete(ws, cs, e).0[i];
      exists gone: Cell :: IsOrWasDeleted(ws[i], cs[i], e.lists[i], gone, c)
  {
    var (gone, ok) := Loop(DeleteOne, ws, cs, e.rs, |ws|);
    LoopEach(DeleteOne, ws, cs, e.rs, |ws|, i);
    assert gone[i] == cs[i].(subnet := gone[i].subnet);
    if ok && e.between {
      LoopEach(DeleteListOne, ws, gone, e.lists, |ws|, i);
    }
    assert IsOrWasDeleted(ws[i], cs[i], e.lists[i], gone[i], AfterDelete(ws, cs, e).0[i]);
  }

  lemma DeletePassFindable(ws: seq<Wanted>, cs: seq<Cell>, e: Event)
    requires e.DeletePass? && Fits(ws, e) && AllFindable(ws, cs)
    ensures AllFindable(ws, Apply(ws, cs, e))
  {
    forall i | 0 <= i < |ws| ensures Findable(ws[i], Apply(ws, cs, e)[i]) {
      DeletedCell(ws, cs, e, i);
      var c := AfterDelete(ws, cs, e).0[i];
      var gone: Cell :| IsOrWasDeleted(ws[i], cs[i], e.lists[i], gone, c);
      DeleteListFindable(ws[i], gone, e.lists[i]);
      assert c.recorded == cs[i].recorded;
    }
  }

  /** Smooth create passes, then delete passes that fail anywhere and lose any patch. */
  lemma {:induction false} StaysFindable(ws: seq<Wanted>, run: seq<Event>, more: seq<Event>)
    requires (forall f :: f in run || f in more ==> Fits(ws, f)) && Smooth(ws, run)
    requires forall f :: f in more ==> f.DeletePass?
    ensures (forall f :: f in run + more ==> Fits(ws, f)) && AllFindable(ws, Exec(ws, run + more))
  {
    if more == [] {
      assert run + more == run;
      SmoothPairs(ws, run);
    } else {
      var n := |more| - 1;
      StaysFindable(ws, run, more[..n]);
      assert run + more == (run + more[..n]) + [more[n]];
      ExecOne(ws, run + more[..n], more[n]);
      DeletePassFindable(ws, Exec(ws, run + more[..n]), more[n]);
    }
  }

  /** After smooth create passes and any number of delete passes, failing anywhere and losing any patch, the
      delete pass that succeeds leaves no list. */
  lemma NoListLeft(ws: seq<Wanted>, run: seq<Event>, more: seq<Event>, e: Event)
    requires (forall f :: f in run || f in more ==> Fits(ws, f)) && Smooth(ws, run)
    requires forall f :: f in more ==> f.DeletePass?
    requires e.DeletePass? && Fits(ws, e) && AllHonest(Exec(ws, run + more), e.lists)
    requires AfterDelete(ws, Exec(ws, run + more), e).1
    ensures forall c :: c in AfterDelete(ws, Exec(ws, run + more), e).0 ==> c.lists == {}
  {
    var cs := Exec(ws, run + more);
    StaysFindable(ws, run, more);
    var gone := Loop(DeleteOne, ws, cs, e.rs, |ws|).0;
    forall i | 0 <= i < |ws| ensures AfterDelete(ws, cs, e).0[i].lists == {} {
      LoopEach(DeleteOne, ws, cs, e.rs, |ws|, i);
      LoopEach(DeleteListOne, ws, gone, e.lists, |ws|, i);
      assert gone[i] == cs[i].(subnet := gone[i].subnet);
      if ws[i].securityList {
        LeftListsIff(ws[i], gone[i], e.lists[i]);
      }
    }
  }

  lemma ExecOne(ws: seq<Wanted>, run: seq<Event>, e: Event)
    requires Fits(ws, e) && forall f :: f in run ==> Fits(ws, f)
    ensures Exec(ws, run + [e]) == Apply(ws, Exec(ws, run), e)
  {
    assert (run + [e])[..|run|] == run;
  }

  lemma TwoLists(ws: seq<Wanted>) returns (run: seq<Event>)
    requires ws == [Wanted(false, true)]
    ensures forall f :: f in run ==> f.CreatePass? && Fits(ws, f)
    ensures forall i :: 0 <= i < |run| ==> AllHonest(Exec(ws, run[..i]), run[i].rs)
    ensures Exec(ws, run) == [Cell(true, {0, 1}, Some(1))]
  {
    var fails, works := AllDone(0, 0).(createSubnet := Fails(false)), AllDone(1, 0);
    var a, b := CreatePass([fails], true), CreatePass([works], true);
    var none, one, two := Cell(false, {}, None), Cell(false, {0}, Some(0)), Cell(true, {0, 1}, Some(1));
    run := [a, b];
    assert run[..0] == [] && run[..1] == [a] && [] + [a] == [a] && [a] + [b] == run;
    assert none.lists + {0} == one.lists && one.lists + {1} == two.lists;
    assert Exec(ws, []) == [none];
    assert Exec(ws, [a]) == [one] by {
      ExecOne(ws, [], a);
      LoopOne(CreateOne, ws[0], none, fails);
    }
    assert Exec(ws, run) == [two] by {
      ExecOne(ws, [a], b);
      LoopOne(CreateOne, ws[0], one, works);
    }
  }

  /** The condition is needed: the creation of a subnet fails once, the next pass succeeds, and a delete pass that
      succeeds leaves the first list behind. */
  lemma SecondListLeft() returns (ws: seq<Wanted>, run: seq<Event>, e: Event)
    ensures (forall f :: f in run ==> f.CreatePass? && Fits(ws, f)) && e.DeletePass? && Fits(ws, e)
    ensures forall i :: 0 <= i < |run| ==> AllHonest(Exec(ws, run[..i]), run[i].rs)
    ensures AllHonest(Exec(ws, run), e.lists) && AfterDelete(ws, Exec(ws, run), e).1
    ensures exists c :: c in AfterDelete(ws, Exec(ws, run), e).0 && !c.subnet && c.lists != {}
  {
    ws := [Wanted(false, true)];
    run := TwoLists(ws);
    var deletes := AllDone(2, 0);
    e := DeletePass([deletes], true, [deletes], true);
    var two, left := Cell(true, {0, 1}, Some(1)), Cell(false, {0}, Some(1));
    LoopOne(DeleteOne, ws[0], two, deletes);
    LoopOne(DeleteListOne, ws[0], two.(subnet := false), deletes);
    assert two.lists * {1} == {1} && two.lists - {1} == left.lists;
    assert AfterDelete(ws, [two], e) == ([left], true);
    assert left in AfterDelete(ws, Exec(ws, run), e).0;
  }

  lemma LoopOne(job: Job, w: Wanted, c: Cell, r: Reply)
    ensures Loop(job, [w], [c], [r], 1) == ([job(w, c, r).0], job(w, c, r).1)
  {
    assert Loop(job, [w], [c], [r], 0) == ([c], true);
    assert [c][0 := job(w, c, r).0] == [job(w, c, r).0];
  }
}
