/**
 The batch runner's tasks as the code runs them: the loop that drains the queue and one dispatch
 per job. At every await other tasks may run; the ghost trace records that all of it together is
 a schedule of module BatchRunner.
 */
module RunnerTasks {
  import opened Models
  import opened BatchRunner
  import Llm = LlmProtocol

  class Runner {
    const config: Config
    var queue: seq<Job>
    var stopping: bool
    var loop: LoopPc
    var jobs: seq<Dispatch>
    var outerFree: int
    var client: Llm.State
    ghost var submitted: seq<Job>
    ghost var trace: seq<Action>

    constructor (config: Config)
      requires config.outer > 0 && config.client.permits > 0
      ensures Valid() && this.config == config && queue == [] && jobs == [] && loop.Top?
    {
      this.config, this.queue, this.stopping, this.loop := config, [], false, Top;
      this.jobs, this.outerFree, this.client := [], config.outer, Llm.Initial(config.client);
      this.submitted, this.trace := [], [];
    }

    ghost function View(): State
      reads this
    {
      State(queue, submitted, loop, stopping, jobs, outerFree, client)
    }

    /** The runner is where its trace, a legal schedule, leads from the initial state. */
    ghost predicate Valid()
      reads this
    {
      && config.outer > 0 && config.client.permits > 0
      && Legal(config, Initial(config), trace)
      && View() == Run(config, Initial(config), trace)
    }

    lemma {:induction false} ValidKeepsInv()
      requires Valid()
      ensures Inv(config, View())
    {
      assert LlmSafety.Safe(config.client, Llm.Initial(config.client));
      InvOverSchedules(config, Initial(config), trace);
    }

    /** One action of the schedule led here from `before`. */
    ghost predicate Took(before: State, a: Action)
      reads this
    {
      Enabled(config, before, a) && View() == Next(config, before, a)
    }

    ghost method Log(a: Action)
      requires config.outer > 0 && config.client.permits > 0
      requires Legal(config, Initial(config), trace)
      requires Enabled(config, Run(config, Initial(config), trace), a)
      requires View() == Next(config, Run(config, Initial(config), trace), a)
      modifies this`trace
      ensures Valid() && trace == old(trace) + [a]
    {
      RunExtends(config, Initial(config), trace, a);
      trace := trace + [a];
    }

    // ----- awaits -----

    /** Other tasks run; a dispatch may rely on nothing but this contract. */
    method Interleave(ghost me: nat)
      requires Valid() && me < |jobs|
      modifies this
      ensures Valid() && old(trace) <= trace
      ensures me < |jobs| && jobs[me] == old(jobs[me])
    {
    }

    /** Waiting on the queue: others may submit, but only the loop itself takes jobs out. */
    method AwaitQueue()
      requires Valid() && loop.Getting?
      modifies this
      ensures Valid() && old(trace) <= trace && loop.Getting? && old(queue) <= queue
    {
    }

    method FindHolder() returns (i: nat)
      requires LlmSafety.Safe(config.client, client) && config.client.permits > 0 && client.free == 0
      ensures i < |client.calls| && client.calls[i].pc.InFlight?
    {
      i := 0;
      while i < |client.calls| && !client.calls[i].pc.InFlight?
        invariant i <= |client.calls|
        invariant forall j :: 0 <= j < i ==> !client.calls[j].pc.InFlight?
      {
        i := i + 1;
      }
      if i == |client.calls| {
        var j := LlmProgress.SomeHolder(client.calls);
      }
    }

    /** Awaiting a job's call: the client's calls advance until it is done, which takes boundedly
        many steps. */
    method AwaitCall(me: nat)
      requires Valid() && me < |jobs| && jobs[me].pc.Calling?
      modifies this
      ensures Valid() && old(trace) <= trace && jobs == old(jobs) && outerFree == old(outerFree)
      ensures jobs[me].pc.call < |client.calls| && client.calls[jobs[me].pc.call].pc.Done?
    {
      var t := jobs[me].pc.call;
      ValidKeepsInv();
      while !client.calls[t].pc.Done?
        invariant Valid() && old(trace) <= trace && jobs == old(jobs) && outerFree == old(outerFree)
        invariant t < |client.calls| && LlmSafety.Safe(config.client, client)
        decreases LlmProgress.Rank(client)
      {
        var i := t;
        if client.calls[t].pc.Waiting? && client.free == 0 {
          i := FindHolder();
        }
        LlmProgress.OwnActionIsEnabled(config.client, client, i);
        Advance(LlmProgress.OwnAction(client.calls[i], i));
      }
    }

    method Advance(b: Llm.Action)
      requires Valid() && Llm.Enabled(config.client, client, b) && Llm.Actor(b).Some?
      modifies this
      ensures Valid() && trace == old(trace) + [Client(b)] && Took(old(View()), Action.Client(b))
      ensures jobs == old(jobs) && outerFree == old(outerFree)
      ensures |client.calls| == |old(client).calls| && LlmSafety.Safe(config.client, client)
      ensures 0 <= LlmProgress.Rank(client) < LlmProgress.Rank(old(client))
    {
      ValidKeepsInv();
      LlmProgress.StepLowersRank(config.client, client, b);
      LlmProgress.ActorAdvances(config.client, client, b, Llm.Actor(b).value);
      client := Llm.Next(config.client, client, b);
      Log(Action.Client(b));
      ValidKeepsInv();
      LlmProgress.RankNonNegative(client.calls);
    }

    // ----- submit, stop and the loop -----

    method Submit(job: Job)
      requires Valid()
      modifies this
      ensures Valid() && trace == old(trace) + [Action.Submit(job)]
      ensures Took(old(View()), Action.Submit(job)) && queue == old(queue) + [job]
    {
      queue := queue + [job];
      submitted := submitted + [job];
      Log(Action.Submit(job));
    }

    method Stop()
      requires Valid()
      modifies this
      ensures Valid() && trace == old(trace) + [Action.Stop]
      ensures Took(old(View()), Action.Stop) && stopping
    {
      stopping := true;
      Log(Action.Stop);
    }

    /** One turn of the loop: leave it once stopped, else wait for a job and create its dispatch,
        or time out on an empty queue. */
    method RunOnce() returns (dispatched: Option<nat>)
      requires Valid() && loop.Top?
      modifies this
      ensures Valid() && old(trace) <= trace
      ensures old(stopping) <==> loop.Exited?
      ensures old(stopping) ==> dispatched.None? && queue == old(queue) && jobs == old(jobs)
      ensures dispatched.Some? ==> dispatched.value < |jobs| && jobs[dispatched.value].pc.Waiting?
      ensures dispatched.Some? && old(queue) != [] ==> jobs[dispatched.value].job == old(queue)[0]
      ensures !old(stopping) && old(queue) != [] ==> dispatched.Some?
    {
      loop := if stopping then Exited else Getting;
      Log(CheckStop);
      if loop.Exited? {
        return None;
      }
      AwaitQueue();
      if queue == [] {
        loop := Top;
        Log(TimeOut);
        return None;
      }
      dispatched := Some(|jobs|);
      queue, jobs, loop := queue[1..], jobs + [Dispatch.Dispatch(queue[0], Waiting, [], false)], Top;
      Log(Take);
    }

    // ----- one dispatch -----

    method EnterJob(me: nat)
      requires Valid() && me < |jobs| && jobs[me].pc.Waiting? && outerFree > 0
      modifies this
      ensures Valid() && old(trace) <= trace && Took(old(View()), Enter(me))
      ensures me < |jobs| && jobs[me] == old(jobs[me]).(pc := Calling(|old(client).calls|))
      ensures client.calls == old(client).calls + [Llm.Call(RequestOf(config, jobs[me].job), Llm.Ready, 0, "", 0.0)]
    {
      ghost var before := View();
      jobs := jobs[me := jobs[me].(pc := Calling(|client.calls|))];
      outerFree := outerFree - 1;
      client := Llm.Next(config.client, client, Llm.Spawn(RequestOf(config, jobs[me].job)));
      assert View() == Next(config, before, Enter(me));
      Log(Enter(me));
    }

    method ReturnJob(me: nat)
      requires Valid() && me < |jobs| && jobs[me].pc.Calling?
      requires jobs[me].pc.call < |client.calls| && client.calls[jobs[me].pc.call].pc.Done?
      modifies this
      ensures Valid() && old(trace) <= trace && Took(old(View()), Return(me)) && outerFree == old(outerFree)
      ensures me < |jobs| && jobs == old(jobs)[me := jobs[me]]
      ensures client == old(client)
      ensures var call := old(jobs[me]).pc.call;
              jobs[me] == old(jobs[me]).(
                pc := match client.calls[call].pc.outcome
                      case Hit(v) => FirstCallback(call, v)
                      case Answered(v, _) => FirstCallback(call, v)
                      case _ => LastCallback(call))
    {
      ghost var before := View();
      jobs := jobs[me := jobs[me].(pc := Returned(jobs[me].pc.call, client.calls[jobs[me].pc.call].pc.outcome))];
      assert View() == Next(config, before, Return(me));
      Log(Return(me));
    }

    /** The callback runs; raising on the response leads to a second callback with nothing, and the
        permit is released after the last one. */
    method CallBackJob(me: nat, raises: bool)
      requires Valid() && me < |jobs| && (jobs[me].pc.FirstCallback? || jobs[me].pc.LastCallback?)
      modifies this
      ensures Valid() && old(trace) <= trace && Took(old(View()), CallBack(me, raises))
      ensures me < |jobs| && jobs == old(jobs)[me := jobs[me]]
      ensures client == old(client)
      ensures var d := old(jobs[me]);
              jobs[me] == match d.pc
                case FirstCallback(call, v) =>
                  if raises then d.(pc := LastCallback(call), given := d.given + [Some(v)], raised := true)
                  else d.(pc := Finished(call), given := d.given + [Some(v)])
                case LastCallback(call) => d.(pc := Finished(call), given := d.given + [None])
      ensures outerFree == if jobs[me].pc.Finished? then old(outerFree) + 1 else old(outerFree)
    {
      ghost var before := View();
      jobs := jobs[me := CalledBack(jobs[me], raises)];
      if jobs[me].pc.Finished? {
        outerFree := outerFree + 1;
      }
      assert View() == Next(config, before, CallBack(me, raises));
      Log(CallBack(me, raises));
    }

    /** Drives a job that holds an outer permit to its end. */
    method Complete(k: nat)
      requires Valid() && k < |jobs| && !jobs[k].pc.Waiting? && !jobs[k].pc.Finished?
      modifies this
      ensures Valid() && old(trace) <= trace && outerFree == old(outerFree) + 1
      ensures |jobs| == |old(jobs)| && forall j :: 0 <= j < |jobs| && j != k ==> jobs[j] == old(jobs)[j]
    {
      if jobs[k].pc.Calling? {
        AwaitCall(k);
        ReturnJob(k);
      }
      CallBackJob(k, false);
    }

    /** Waits for the outer semaphore: others run until a permit is free. */
    method AwaitOuter(me: nat)
      requires Valid() && me < |jobs| && jobs[me].pc.Waiting?
      modifies this
      ensures Valid() && old(trace) <= trace && outerFree > 0
      ensures me < |jobs| && jobs[me] == old(jobs[me])
    {
      ValidKeepsInv();
      if outerFree == 0 {
        var k := 0;
        while k < |jobs| && (jobs[k].pc.Waiting? || jobs[k].pc.Finished?)
          invariant k <= |jobs|
          invariant forall j :: 0 <= j < k ==> jobs[j].pc.Waiting? || jobs[j].pc.Finished?
        {
          k := k + 1;
        }
        if k == |jobs| {
          var j := BatchRunner.SomeHolder(jobs);
        }
        Complete(k);
      }
    }

    /** The callback with the response, if there is one, then the one with nothing, if needed. */
    method CallBacks(me: nat, raises: bool)
      requires Valid() && me < |jobs| && (jobs[me].pc.FirstCallback? || jobs[me].pc.LastCallback?)
      requires jobs[me].given == [] && !jobs[me].raised
      modifies this
      ensures Valid() && old(trace) <= trace
      ensures me < |jobs| && jobs[me].pc.Finished? && jobs[me].job == old(jobs[me]).job && jobs[me].pc.call == old(jobs[me]).pc.call
      ensures jobs[me].raised == (old(jobs[me]).pc.FirstCallback? && raises)
      ensures jobs[me].given ==
              match old(jobs[me]).pc
              case FirstCallback(_, v) => if raises then [Some(v), None] else [Some(v)]
              case _ => [None]
    {
      if jobs[me].pc.FirstCallback? {
        Interleave(me);
        CallBackJob(me, raises);
      }
      if jobs[me].pc.LastCallback? {
        Interleave(me);
        CallBackJob(me, false);
      }
    }

    /** A dispatched job, under any interference at its awaits, finishes: its callback has been given the
        response of its call, and nothing more unless it raised on it; nothing at all, if the call raised. */
    method DispatchJob(me: nat, raises: bool)
      requires Valid() && me < |jobs| && jobs[me].pc.Waiting?
      modifies this
      ensures Valid() && old(trace) <= trace
      ensures me < |jobs| && jobs[me].pc.Finished? && jobs[me].job == old(jobs[me]).job
      ensures GivenTheResponse(client.calls, jobs[me].pc.call, jobs[me].given, jobs[me].raised)
      ensures MakesItsRequest(config, client.calls, jobs[me])
      ensures jobs[me].raised == (raises && jobs[me].given[0].Some?)
    {
      ValidKeepsInv();
      assert CallbacksOk(client.calls, jobs[me]);
      Interleave(me);
      AwaitOuter(me);
      EnterJob(me);
      Interleave(me);
      AwaitCall(me);
      ReturnJob(me);
      CallBacks(me, raises);
      ValidKeepsInv();
      FinishedFits(client.calls, jobs[me]);
    }
  }
}
