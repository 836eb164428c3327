/**
 * The wallet side of the generator page. The injected Phantom provider is not
 * modelled: what each of its calls does is an input (an outcome), and the
 * component's connection state is a `Session`.
 */
module Wallet {
  import opened Wrappers

  /**
   * What a connect attempt meets: no `solana` object on the window, one that
   * is not Phantom, a `connect()` promise that rejects, or one that resolves
   * with a public key (its string form).
   */
  datatype ConnectOutcome = Absent | NotPhantom | Rejected | Approved(key: string)

  /**
   * What a disconnect attempt meets: no provider, a provider that is not
   * Phantom, a `disconnect()` promise that rejects (the handler throws before
   * touching state), or one that resolves.
   */
  datatype DisconnectOutcome = NoProvider | NotPhantomProvider | DisconnectRejected | DisconnectResolved

  /** The pair `isWalletConnected`, `walletAddress`. */
  datatype Session = Session(connected: bool, address: Option<string>)

  /** The two fields are only ever set together. */
  predicate Consistent(s: Session) {
    s.connected <==> s.address.Some?
  }

  /** The session after a connect attempt (silent or clicked, they agree on state). */
  function AfterConnect(s: Session, o: ConnectOutcome): (r: Session)
    ensures Consistent(s) ==> Consistent(r)
    ensures r == s || (r.connected && r.address.Some?)
  {
    if o.Approved? then Session(true, Some(o.key)) else s
  }

  /** A clicked connect shows the install notice exactly when there is no Phantom provider. */
  predicate InstallNotice(o: ConnectOutcome) {
    o.Absent? || o.NotPhantom?
  }

  /** The session after a disconnect attempt. */
  function AfterDisconnect(s: Session, o: DisconnectOutcome): (r: Session)
    ensures Consistent(s) ==> Consistent(r)
    ensures r == s || (!r.connected && r.address.None?)
  {
    if o.DisconnectResolved? then Session(false, None) else s
  }

  /**
   * A wallet event the page can react to: the reply to the silent startup
   * connect, a click on Connect Wallet, a click on Disconnect.
   */
  datatype WalletEvent =
    | StartupReply(startup: ConnectOutcome)
    | ConnectClick(click: ConnectOutcome)
    | DisconnectClick(release: DisconnectOutcome)

  function AfterEvent(s: Session, e: WalletEvent): Session {
    match e
    case StartupReply(o) => AfterConnect(s, o)
    case ConnectClick(o) => AfterConnect(s, o)
    case DisconnectClick(o) => AfterDisconnect(s, o)
  }

  /** The session after a run of wallet events, handled one after the other. */
  function AfterEvents(s: Session, es: seq<WalletEvent>): Session
    decreases |es|
  {
    if es == [] then s else AfterEvents(AfterEvent(s, es[0]), es[1..])
  }

  /** An event that changes the session whatever it was: an approved connect or a completed disconnect. */
  predicate Decisive(e: WalletEvent) {
    match e
    case StartupReply(o) => o.Approved?
    case ConnectClick(o) => o.Approved?
    case DisconnectClick(o) => o.DisconnectResolved?
  }

  /** The session a decisive event leaves. */
  function Settled(e: WalletEvent): Session
    requires Decisive(e)
  {
    match e
    case StartupReply(o) => Session(true, Some(o.key))
    case ConnectClick(o) => Session(true, Some(o.key))
    case DisconnectClick(_) => Session(false, None)
  }

  /** A decisive event forgets the previous session; any other event keeps it. */
  lemma EventEffect(s: Session, e: WalletEvent)
    ensures Decisive(e) ==> AfterEvent(s, e) == Settled(e)
    ensures !Decisive(e) ==> AfterEvent(s, e) == s
  {}

  /** The silent startup connect and a clicked connect change the session alike. */
  lemma StartupLikeClick(s: Session, o: ConnectOutcome)
    ensures AfterEvent(s, StartupReply(o)) == AfterEvent(s, ConnectClick(o))
  {}

  lemma {:induction false} AfterEventsConsistent(s: Session, es: seq<WalletEvent>)
    requires Consistent(s)
    ensures Consistent(AfterEvents(s, es))
    decreases |es|
  {
    if es != [] {
      AfterEventsConsistent(AfterEvent(s, es[0]), es[1..]);
    }
  }

  /** Handling `a` and then `b` is handling `a + b`. */
  lemma {:induction false} AfterEventsAppend(s: Session, a: seq<WalletEvent>, b: seq<WalletEvent>)
    ensures AfterEvents(s, a + b) == AfterEvents(AfterEvents(s, a), b)
    decreases |a|
  {
    if a == [] {
      assert a + b == b;
    } else {
      assert (a + b)[0] == a[0];
      assert (a + b)[1..] == a[1..] + b;
      AfterEventsAppend(AfterEvent(s, a[0]), a[1..], b);
    }
  }

  /** Failed connects and disconnects, however many, leave the session unchanged. */
  lemma {:induction false} QuietEventsKeepSession(s: Session, es: seq<WalletEvent>)
    requires forall i :: 0 <= i < |es| ==> !Decisive(es[i])
    ensures AfterEvents(s, es) == s
    decreases |es|
  {
    if es != [] {
      EventEffect(s, es[0]);
      QuietEventsKeepSession(s, es[1..]);
    }
  }

  /** After a run of events the session is the one the last decisive event set. */
  lemma LastDecisiveWins(s: Session, es: seq<WalletEvent>, k: nat)
    requires k < |es| && Decisive(es[k])
    requires forall j :: k < j < |es| ==> !Decisive(es[j])
    ensures AfterEvents(s, es) == Settled(es[k])
  {
    var before, after := es[..k], es[k + 1..];
    assert es == before + ([es[k]] + after);
    AfterEventsAppend(s, before, [es[k]] + after);
    var mid := AfterEvents(s, before);
    AfterEventsAppend(mid, [es[k]], after);
    EventEffect(mid, es[k]);
    assert AfterEvents(mid, [es[k]]) == AfterEvent(mid, es[k]);
    QuietEventsKeepSession(Settled(es[k]), after);
  }
}
