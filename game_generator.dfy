/**
 * The `GameGenerator` page: its six pieces of state, the wallet handlers,
 * the prompt form and the simulated generation run.
 */
module Generation {
  import opened Wrappers
  import opened Text
  import opened Wallet
  import View

  datatype Sender = User | System

  datatype Message = Message(sender: Sender, content: string)

  /** The fixed labels of the simulated generation pipeline. */
  const GenerationSteps: seq<string> := [
    "Analyzing prompt...",
    "Setting up core systems...",
    "Generating required assets...",
    "Configuring interactive elements...",
    "Building your game now..."
  ]

  /**
   * The guard of the submit handler: a non-blank prompt and a connected
   * wallet. It does not look at whether a run is already in progress.
   */
  predicate SubmitGuard(text: string, connected: bool) {
    Trim(text) != [] && connected
  }

  /** The wallet events that run while the loop awaits its `i`-th timer. */
  function EventsAt(during: seq<seq<WalletEvent>>, i: nat): seq<WalletEvent> {
    if i < |during| then during[i] else []
  }

  /** The wallet events that run during the first `n` awaits, in order. */
  function Pending(during: seq<seq<WalletEvent>>, n: nat): seq<WalletEvent> {
    if n == 0 then [] else Pending(during, n - 1) + EventsAt(during, n - 1)
  }

  /** No event arriving during the first `n` awaits changes the session. */
  predicate QuietDuring(during: seq<seq<WalletEvent>>) {
    forall i, j :: 0 <= i < |during| && 0 <= j < |during[i]| ==> !Decisive(during[i][j])
  }

  lemma {:induction false} PendingQuiet(during: seq<seq<WalletEvent>>, n: nat)
    requires QuietDuring(during)
    ensures forall k :: 0 <= k < |Pending(during, n)| ==> !Decisive(Pending(during, n)[k])
  {
    if n > 0 {
      PendingQuiet(during, n - 1);
      var front, back := Pending(during, n - 1), EventsAt(during, n - 1);
      assert Pending(during, n) == front + back;
      forall k | 0 <= k < |front + back|
        ensures !Decisive((front + back)[k])
      {
        if k >= |front| {
          assert (front + back)[k] == during[n - 1][k - |front|];
        }
      }
    }
  }

  /** The values a run writes to the step, in order: 0, 1, ..., |GenerationSteps| - 1. */
  function RunSteps(n: nat): (r: seq<nat>)
    ensures |r| == n && forall i :: 0 <= i < n ==> r[i] == i
  {
    if n == 0 then [] else RunSteps(n - 1) + [n - 1]
  }

  class GameGenerator {
    var walletConnected: bool
    var walletAddress: Option<string>
    var messages: seq<Message>
    var currentMessage: string
    var generating: bool
    var generationStep: nat
    /** Every value ever written to `generationStep`, oldest first. */
    ghost var stepLog: seq<nat>

    function CurrentSession(): Session
      reads this
    {
      Session(walletConnected, walletAddress)
    }

    /**
     * The address is set exactly while connected; the step points at one of
     * the labels, stays at 0 until a run starts and is the last value
     * written to it; only user messages are ever logged.
     */
    ghost predicate Valid()
      reads this
    {
      && Consistent(CurrentSession())
      && generationStep < |GenerationSteps|
      && (!generating ==> generationStep == 0)
      && (if stepLog == [] then generationStep == 0 else generationStep == stepLog[|stepLog| - 1])
      && forall i :: 0 <= i < |messages| ==> messages[i].sender == User
    }

    /** The initial state of the page. */
    constructor ()
      ensures Valid()
      ensures !walletConnected && walletAddress == None
      ensures messages == [] && currentMessage == []
      ensures !generating && generationStep == 0 && stepLog == []
    {
      walletConnected, walletAddress := false, None;
      messages, currentMessage := [], [];
      generating, generationStep := false, 0;
      stepLog := [];
    }

    /**
     * The mount effect: `connect({onlyIfTrusted: true})` and its reply. Only
     * an approved connect changes anything; every failure is swallowed.
     */
    method ConnectOnStartup(o: ConnectOutcome)
      requires Valid()
      modifies this
      ensures Valid()
      ensures o.Approved? ==> walletConnected && walletAddress == Some(o.key)
      ensures !o.Approved? ==> walletConnected == old(walletConnected) && walletAddress == old(walletAddress)
      ensures messages == old(messages) && currentMessage == old(currentMessage)
      ensures generating == old(generating) && generationStep == old(generationStep)
      ensures stepLog == old(stepLog)
    {
      if o.Approved? {
        walletAddress := Some(o.key);
        walletConnected := true;
      }
    }

    /**
     * The Connect Wallet button. Without a Phantom provider it only raises the
     * install notice; a rejected connect is only logged.
     */
    method ConnectWallet(o: ConnectOutcome) returns (installNotice: bool)
      requires Valid()
      modifies this
      ensures Valid()
      ensures installNotice <==> InstallNotice(o)
      ensures o.Approved? ==> walletConnected && walletAddress == Some(o.key)
      ensures !o.Approved? ==> walletConnected == old(walletConnected) && walletAddress == old(walletAddress)
      ensures messages == old(messages) && currentMessage == old(currentMessage)
      ensures generating == old(generating) && generationStep == old(generationStep)
      ensures stepLog == old(stepLog)
    {
      if o.Absent? || o.NotPhantom? {
        return true;
      }
      installNotice := false;
      if o.Approved? {
        walletAddress := Some(o.key);
        walletConnected := true;
      }
    }

    /**
     * The Disconnect button. State is cleared only once the provider's
     * `disconnect()` has resolved; the handler does not test whether the
     * wallet was connected.
     */
    method DisconnectWallet(o: DisconnectOutcome)
      requires Valid()
      modifies this
      ensures Valid()
      ensures o.DisconnectResolved? ==> !walletConnected && walletAddress == None
      ensures !o.DisconnectResolved? ==> walletConnected == old(walletConnected) && walletAddress == old(walletAddress)
      ensures messages == old(messages) && currentMessage == old(currentMessage)
      ensures generating == old(generating) && generationStep == old(generationStep)
      ensures stepLog == old(stepLog)
    {
      if o.DisconnectResolved? {
        walletConnected := false;
        walletAddress := None;
      }
    }

    /** Runs the handler a wallet event stands for. */
    method Dispatch(e: WalletEvent)
      requires Valid()
      modifies this
      ensures Valid()
      ensures CurrentSession() == AfterEvent(old(CurrentSession()), e)
      ensures messages == old(messages) && currentMessage == old(currentMessage)
      ensures generating == old(generating) && generationStep == old(generationStep)
      ensures stepLog == old(stepLog)
    {
      match e
      case StartupReply(o) => ConnectOnStartup(o);
      case ConnectClick(o) => { var _ := ConnectWallet(o); }
      case DisconnectClick(o) => DisconnectWallet(o);
    }

    /** Runs the handlers of a run of wallet events, one after the other. */
    method DispatchAll(events: seq<WalletEvent>)
      requires Valid()
      modifies this
      ensures Valid()
      ensures CurrentSession() == AfterEvents(old(CurrentSession()), events)
      ensures messages == old(messages) && currentMessage == old(currentMessage)
      ensures generating == old(generating) && generationStep == old(generationStep)
      ensures stepLog == old(stepLog)
    {
      var j := 0;
      assert events[..j] == [];
      while j < |events|
        invariant 0 <= j <= |events|
        invariant Valid()
        invariant CurrentSession() == AfterEvents(old(CurrentSession()), events[..j])
        invariant messages == old(messages) && currentMessage == old(currentMessage)
        invariant generating == old(generating) && generationStep == old(generationStep)
        invariant stepLog == old(stepLog)
      {
        ghost var before := CurrentSession();
        Dispatch(events[j]);
        AfterEventsAppend(old(CurrentSession()), events[..j], [events[j]]);
        assert events[..j + 1] == events[..j] + [events[j]];
        assert AfterEvents(before, [events[j]]) == AfterEvent(before, events[j]);
        j := j + 1;
      }
      assert events[..j] == events;
    }

    /** The `onChange` handler of the prompt input. */
    method EditPrompt(text: string)
      requires Valid()
      modifies this
      ensures Valid()
      ensures currentMessage == text
      ensures walletConnected == old(walletConnected) && walletAddress == old(walletAddress)
      ensures messages == old(messages)
      ensures generating == old(generating) && generationStep == old(generationStep)
      ensures stepLog == old(stepLog)
    {
      currentMessage := text;
    }

    /**
     * The synchronous part of the submit handler, once its guard has passed:
     * the prompt as typed is logged, the input cleared and the run started
     * at step 0, so the list shows only the first label, in progress.
     */
    method StartRun()
      requires Valid()
      modifies this
      ensures Valid()
      ensures messages == old(messages) + [Message(User, old(currentMessage))]
      ensures currentMessage == [] && generating && generationStep == 0
      ensures stepLog == old(stepLog) + [0]
      ensures View.StepRows(GenerationSteps, generating, generationStep)
        == [View.StepRow("Analyzing prompt...", View.InProgress)]
      ensures walletConnected == old(walletConnected) && walletAddress == old(walletAddress)
    {
      messages := messages + [Message(User, currentMessage)];
      currentMessage := [];
      generating := true;
      generationStep := 0;
      stepLog := stepLog + [0];
    }

    /**
     * The end of the loop's `i`-th iteration, after its timer: the step
     * becomes `i + 1` and nothing else changes.
     */
    method AdvanceStep(i: nat)
      requires Valid() && generating && i + 1 < |GenerationSteps|
      modifies this
      ensures Valid()
      ensures generationStep == i + 1 && stepLog == old(stepLog) + [i + 1]
      ensures walletConnected == old(walletConnected) && walletAddress == old(walletAddress)
      ensures messages == old(messages) && currentMessage == old(currentMessage)
      ensures generating
    {
      generationStep := i + 1;
      stepLog := stepLog + [i + 1];
    }

    /**
     * One iteration `i` of the step loop: the timer's await, during which the
     * wallet `events` run, then the step becomes `i + 1`.
     */
    method Tick(i: nat, events: seq<WalletEvent>)
      requires Valid() && generating && generationStep == i && i + 1 < |GenerationSteps|
      modifies this
      ensures Valid()
      ensures generationStep == old(generationStep) + 1 && stepLog == old(stepLog) + [i + 1]
      ensures CurrentSession() == AfterEvents(old(CurrentSession()), events)
      ensures messages == old(messages) && currentMessage == old(currentMessage)
      ensures generating
    {
      DispatchAll(events);
      AdvanceStep(i);
    }

    /**
     * The submit handler together with its run. A rejected submit changes
     * nothing. An accepted one starts the run and then, for each of the
     * |GenerationSteps| - 1 timers, lets the wallet events `during` that
     * await run and advances the step: the step is written 0, 1, ...,
     * |GenerationSteps| - 1, in that order and no other value.
     */
    method HandleSubmit(during: seq<seq<WalletEvent>>) returns (accepted: bool)
      requires Valid()
      modifies this
      ensures Valid()
      ensures accepted == SubmitGuard(old(currentMessage), old(walletConnected))
      ensures !accepted ==> unchanged(this)
      ensures accepted ==> messages == old(messages) + [Message(User, old(currentMessage))]
      ensures accepted ==> currentMessage == [] && generating
      ensures accepted ==> generationStep == |GenerationSteps| - 1
      ensures accepted ==> stepLog == old(stepLog) + RunSteps(|GenerationSteps|)
      ensures accepted ==> CurrentSession() == AfterEvents(old(CurrentSession()), Pending(during, |GenerationSteps| - 1))
    {
      if !SubmitGuard(currentMessage, walletConnected) {
        return false;
      }
      accepted := true;
      ghost var start := CurrentSession();
      StartRun();
      var i := 0;
      assert RunSteps(1) == [0];
      while i < |GenerationSteps| - 1
        invariant 0 <= i <= |GenerationSteps| - 1
        invariant Valid()
        invariant messages == old(messages) + [Message(User, old(currentMessage))]
        invariant currentMessage == [] && generating && generationStep == i
        invariant stepLog == old(stepLog) + RunSteps(i + 1)
        invariant CurrentSession() == AfterEvents(start, Pending(during, i))
      {
        ghost var logged := stepLog;
        Tick(i, EventsAt(during, i));
        AfterEventsAppend(start, Pending(during, i), EventsAt(during, i));
        assert RunSteps(i + 2) == RunSteps(i + 1) + [i + 1];
        assert stepLog == old(stepLog) + RunSteps(i + 2) by {
          assert stepLog == logged + [i + 1];
        }
        i := i + 1;
      }
    }
  }

  // ------------------------------------------------ the UI gate and the guard

  /** An enabled Generate button implies the handler's guard holds. */
  lemma GateImpliesGuard(connected: bool, generating: bool, text: string)
    ensures !View.SubmitDisabled(connected, generating, text) ==> SubmitGuard(text, connected)
  {}

  /**
   * The converse fails: while a run is in progress the handler would accept
   * a prompt that the disabled button keeps from being submitted.
   */
  lemma GuardIgnoresGenerating()
    ensures SubmitGuard("a", true) && View.SubmitDisabled(true, true, "a")
  {}

  /** Once a run has started, the input and the button stay disabled whatever is typed. */
  lemma ControlsLockedWhileGenerating(g: GameGenerator, text: string)
    requires g.Valid() && g.generating
    ensures View.InputDisabled(g.walletConnected, g.generating)
    ensures View.SubmitDisabled(g.walletConnected, g.generating, text)
  {}

  // ------------------------------------------------------------ the display

  /** While connected, the header shows the shortened address and the Disconnect button. */
  lemma HeaderShowsAddress(g: GameGenerator)
    requires g.Valid() && g.walletConnected
    ensures g.walletAddress.Some?
    ensures View.HeaderFor(g.walletConnected, g.walletAddress) == View.AddressAndDisconnect(View.ShortAddress(g.walletAddress.value))
  {}

  /**
   * During a run the list shows the first generationStep + 1 labels in
   * order, the last of them in progress and all the others completed.
   */
  lemma RunningDisplay(g: GameGenerator)
    requires g.Valid() && g.generating
    ensures var rows := View.StepRows(GenerationSteps, g.generating, g.generationStep);
      && |rows| == g.generationStep + 1
      && rows[g.generationStep] == View.StepRow(GenerationSteps[g.generationStep], View.InProgress)
      && forall k :: 0 <= k < g.generationStep ==> rows[k] == View.StepRow(GenerationSteps[k], View.Completed)
  {}

  /**
   * Where every run ends: all five labels show, the first four completed and
   * the last one still in progress.
   */
  lemma FinalStepDisplay()
    ensures var rows := View.StepRows(GenerationSteps, true, |GenerationSteps| - 1);
      && |rows| == |GenerationSteps|
      && rows[|GenerationSteps| - 1] == View.StepRow("Building your game now...", View.InProgress)
      && forall k :: 0 <= k < |GenerationSteps| - 1 ==> rows[k].marker == View.Completed
  {}

  /**
   * A run during which no wallet event changes anything (none at all, or only
   * failed connects and disconnects) leaves the wallet as it was.
   */
  lemma QuietRunKeepsSession(s: Session, during: seq<seq<WalletEvent>>)
    requires QuietDuring(during)
    ensures AfterEvents(s, Pending(during, |GenerationSteps| - 1)) == s
  {
    PendingQuiet(during, |GenerationSteps| - 1);
    QuietEventsKeepSession(s, Pending(during, |GenerationSteps| - 1));
  }
}
