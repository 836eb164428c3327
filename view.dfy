/**
 * The pure rendering rules of the generator page: the shortened wallet
 * address in the header, the rows of the progress list and the two
 * `disabled` attributes of the prompt form.
 */
module View {
  import opened Wrappers
  import opened Text

  // ---------------------------------------------------------------- header

  /**
   * `addr.slice(0, 4) + "..." + addr.slice(-4)`: the first and the last
   * min(4, |addr|) characters around an ellipsis (the two parts overlap, or
   * are both the whole address, when it is shorter than eight characters).
   */
  function ShortAddress(addr: string): (r: string)
    ensures var m := if |addr| < 4 then |addr| else 4;
      && |r| == 2 * m + 3
      && r == addr[..m] + "..." + addr[|addr| - m..]
  {
    Slice(addr, 0, 4) + "..." + Slice(addr, -4, |addr|)
  }

  /**
   * The label of the address span; an absent address renders `undefined`
   * twice, which React shows as nothing, leaving the ellipsis.
   */
  function AddressLabel(address: Option<string>): string {
    match address
    case None => "..."
    case Some(a) => ShortAddress(a)
  }

  /** The right-hand side of the header. */
  datatype Header = AddressAndDisconnect(shown: string) | ConnectButton

  function HeaderFor(connected: bool, address: Option<string>): Header {
    if connected then AddressAndDisconnect(AddressLabel(address)) else ConnectButton
  }

  // --------------------------------------------------------- progress list

  /** A completed step shows a filled square, the current one a spinner. */
  datatype Marker = Completed | InProgress

  datatype StepRow = StepRow(text: string, marker: Marker)

  /**
   * The rows `labels.map(...)` produces from index `i` on: a row for each
   * index up to `step`, `null` (which React drops) for the later ones.
   */
  function RowsFrom(labels: seq<string>, step: nat, i: nat): seq<StepRow>
    requires i <= |labels|
    decreases |labels| - i
  {
    if i == |labels| then []
    else
      (if i <= step then [StepRow(labels[i], if i == step then InProgress else Completed)] else [])
      + RowsFrom(labels, step, i + 1)
  }

  /** How many labels are shown for the current step. */
  function ShownCount(count: nat, step: nat): nat {
    if step < count then step + 1 else count
  }

  lemma {:induction false} RowsFromShape(labels: seq<string>, step: nat, i: nat)
    requires i <= |labels|
    ensures var rows, shown := RowsFrom(labels, step, i), ShownCount(|labels|, step);
      && |rows| == (if i < shown then shown - i else 0)
      && forall k :: 0 <= k < |rows| ==>
           rows[k] == StepRow(labels[i + k], if i + k == step then InProgress else Completed)
    decreases |labels| - i
  {
    if i < |labels| {
      RowsFromShape(labels, step, i + 1);
      var tail := RowsFrom(labels, step, i + 1);
      var head := if i <= step then [StepRow(labels[i], if i == step then InProgress else Completed)] else [];
      assert RowsFrom(labels, step, i) == head + tail;
      if i > step {
        assert tail == [];
      }
    }
  }

  /**
   * The progress list: nothing while not generating; otherwise the labels
   * with index at most `step`, in order, the one at `step` in progress and
   * every earlier one completed.
   */
  function StepRows(labels: seq<string>, generating: bool, step: nat): (rows: seq<StepRow>)
    ensures !generating ==> rows == []
    ensures generating ==> |rows| == ShownCount(|labels|, step)
    ensures generating ==> forall k :: 0 <= k < |rows| ==>
      && rows[k].text == labels[k]
      && (rows[k].marker == InProgress <==> k == step)
  {
    if generating then
      RowsFromShape(labels, step, 0);
      RowsFrom(labels, step, 0)
    else []
  }

  // ------------------------------------------------------------ the form

  /** The `disabled` attribute of the prompt input. */
  predicate InputDisabled(connected: bool, generating: bool) {
    !connected || generating
  }

  /** The `disabled` attribute of the Generate button. */
  predicate SubmitDisabled(connected: bool, generating: bool, text: string) {
    !connected || generating || Trim(text) == []
  }

  /** Whenever the input is disabled, so is the button. */
  lemma InputLockLocksSubmit(connected: bool, generating: bool, text: string)
    ensures InputDisabled(connected, generating) ==> SubmitDisabled(connected, generating, text)
  {}

  /** The button is enabled exactly when connected, idle and the text is not blank. */
  lemma SubmitEnabledIff(connected: bool, generating: bool, text: string)
    ensures !SubmitDisabled(connected, generating, text) <==> connected && !generating && !Blank(text)
  {}
}
