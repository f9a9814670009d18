/**
 * subscription.go: listing the application's Graph subscriptions, in the
 * output panel (HandleListSubscriptions) and on standard output
 * (listSubscriptions). The service's answer is a parameter.
 */
module Subscription {
  import opened Wrappers
  import opened Strings
  import Io

  /** An expiration time, as time.RFC3339 formats it and as time.Time.String prints it. */
  datatype Timestamp = Timestamp(rfc3339: string, text: string)

  /** A subscription as the SDK returns it: every field is a pointer; additionalData is a map, kept by its size. */
  datatype Subscription = Subscription(
    id: Option<string>, changeType: Option<string>, expiration: Option<Timestamp>,
    resource: Option<string>, notificationUrl: Option<string>,
    applicationId: Option<string>, creatorId: Option<string>, additionalData: nat)

  /** The collection response: its value list may itself be nil. */
  datatype SubscriptionList = SubscriptionList(value: Option<seq<Subscription>>)

  /** What ListSubscriptions answers: an error, or a response that may be nil. */
  type Response = Result<Option<SubscriptionList>, string>

  // ---------------------------------------------------------------- the output panel

  const ListingHeader := "Listing subscriptions...\n"
  const NilResponseLine := "[yellow]No subscriptions found (response was nil)[white]\n"
  const NilValuesLine := "[yellow]No subscription values found (GetValue() returned nil)[white]\n"
  const NoneActiveLine := "[yellow]No active subscriptions found[white]\n"

  /** The fields the panel's listing dereferences. */
  predicate PanelPrintable(s: Subscription) {
    s.id.Some? && s.changeType.Some? && s.expiration.Some? && s.resource.Some? && s.notificationUrl.Some?
  }

  function PanelBlock(s: Subscription): seq<string>
    requires PanelPrintable(s)
  {
    [ "\n[yellow]SubscriptionId: [green]" + s.id.value + "[white]\n",
      "  ChangeType: " + s.changeType.value + "\n",
      "  ExpirationDateTime: " + s.expiration.value.rfc3339 + "\n",
      "  Resource: " + s.resource.value + "\n",
      "  NotificationURL: " + s.notificationUrl.value + "\n" ]
  }

  function PanelBlocks(subs: seq<Subscription>): seq<string>
    requires forall k :: 0 <= k < |subs| ==> PanelPrintable(subs[k])
  {
    if subs == [] then [] else PanelBlocks(subs[..|subs| - 1]) + PanelBlock(subs[|subs| - 1])
  }

  function FoundLine(n: nat): string {
    "[green]Found " + NatToString(n) + " subscription(s):[white]\n"
  }

  predicate ResponsePrintable(r: Response) {
    r.Success? && r.value.Some? && r.value.value.value.Some? ==>
      forall k :: 0 <= k < |r.value.value.value.value| ==> PanelPrintable(r.value.value.value.value[k])
  }

  /** Everything HandleListSubscriptions writes after clearing the panel. */
  function PanelWrites(r: Response): seq<string>
    requires ResponsePrintable(r)
  {
    [ListingHeader]
    + match r
      case Failure(err) => ["[red]Error making Graph call: " + err + "[white]\n"]
      case Success(None) => [NilResponseLine]
      case Success(Some(SubscriptionList(None))) => [NilValuesLine]
      case Success(Some(SubscriptionList(Some(subs)))) =>
        if subs == [] then [NoneActiveLine] else [FoundLine(|subs|)] + PanelBlocks(subs)
  }

  /** HandleListSubscriptions: clears the output panel and lists the subscriptions, or says why there are none. */
  method HandleListSubscriptions(output: Io.Buffer, response: Response)
    requires ResponsePrintable(response)
    modifies output
    ensures output.chunks == PanelWrites(response) && output.row == old(output.row)
  {
    output.Clear();
    output.Write(ListingHeader);
    if response.Failure? {
      output.Write("[red]Error making Graph call: " + response.error + "[white]\n");
      return;
    }
    if response.value.None? {
      output.Write(NilResponseLine);
      return;
    }
    var values := response.value.value.value;
    if values.None? {
      output.Write(NilValuesLine);
      return;
    }
    var subs := values.value;
    if |subs| == 0 {
      output.Write(NoneActiveLine);
      return;
    }
    output.Write(FoundLine(|subs|));
    for i := 0 to |subs|
      invariant output.chunks == [ListingHeader, FoundLine(|subs|)] + PanelBlocks(subs[..i])
      invariant output.row == old(output.row)
    {
      assert subs[..i + 1][..i] == subs[..i];
      WritePanelBlock(output, subs[i]);
    }
    assert subs[..|subs|] == subs;
  }

  /** The body of HandleListSubscriptions' loop. */
  method WritePanelBlock(output: Io.Buffer, s: Subscription)
    requires PanelPrintable(s)
    modifies output
    ensures output.chunks == old(output.chunks) + PanelBlock(s) && output.row == old(output.row)
  {
    output.Write("\n[yellow]SubscriptionId: [green]" + s.id.value + "[white]\n");
    output.Write("  ChangeType: " + s.changeType.value + "\n");
    output.Write("  ExpirationDateTime: " + s.expiration.value.rfc3339 + "\n");
    output.Write("  Resource: " + s.resource.value + "\n");
    output.Write("  NotificationURL: " + s.notificationUrl.value + "\n");
  }

  /** The k-th subscription's block is the k-th run of five writes. */
  lemma {:induction false} PanelBlockAt(subs: seq<Subscription>, k: nat)
    requires forall j :: 0 <= j < |subs| ==> PanelPrintable(subs[j])
    requires k < |subs|
    ensures |PanelBlocks(subs)| == 5 * |subs|
    ensures PanelBlocks(subs)[5 * k..5 * k + 5] == PanelBlock(subs[k])
  {
    var init := subs[..|subs| - 1];
    if k < |subs| - 1 {
      PanelBlockAt(init, k);
    } else if init != [] {
      PanelBlockAt(init, 0);
    }
  }

  /**
   * A listing of n > 0 subscriptions: the header, a count line whose number
   * reads back as n, and one five-line block per subscription in order.
   */
  lemma ListingOfSubscriptions(subs: seq<Subscription>, k: nat)
    requires forall j :: 0 <= j < |subs| ==> PanelPrintable(subs[j])
    requires k < |subs|
    ensures var w := PanelWrites(Success(Some(SubscriptionList(Some(subs)))));
      && |w| == 2 + 5 * |subs|
      && Unwrap(w[1], "[green]Found ", " subscription(s):[white]\n") == Some(NatToString(|subs|))
      && ParseDecimal(NatToString(|subs|)) == |subs|
      && w[2 + 5 * k..2 + 5 * k + 5] == PanelBlock(subs[k])
  {
    ListingBlockAt(subs, k);
    ListingCountLine(subs);
  }

  /** In a non-empty listing the k-th subscription's block follows the header, the count line and the k blocks before it. */
  lemma ListingBlockAt(subs: seq<Subscription>, k: nat)
    requires forall j :: 0 <= j < |subs| ==> PanelPrintable(subs[j])
    requires k < |subs|
    ensures var w := PanelWrites(Success(Some(SubscriptionList(Some(subs)))));
      |w| == 2 + 5 * |subs| && w[2 + 5 * k..2 + 5 * k + 5] == PanelBlock(subs[k])
  {
    var w := PanelWrites(Success(Some(SubscriptionList(Some(subs)))));
    var blocks := PanelBlocks(subs);
    ListingShape(subs);
    PanelBlockAt(subs, k);
    assert w[2 + 5 * k..2 + 5 * k + 5] == blocks[5 * k..5 * k + 5];
  }

  /** The second line of a non-empty listing is its count line. */
  lemma ListingCountLine(subs: seq<Subscription>)
    requires forall j :: 0 <= j < |subs| ==> PanelPrintable(subs[j])
    requires subs != []
    ensures var w := PanelWrites(Success(Some(SubscriptionList(Some(subs)))));
      && Unwrap(w[1], "[green]Found ", " subscription(s):[white]\n") == Some(NatToString(|subs|))
      && ParseDecimal(NatToString(|subs|)) == |subs|
  {
    ListingShape(subs);
    assert PanelWrites(Success(Some(SubscriptionList(Some(subs)))))[1] == FoundLine(|subs|);
    FoundLineCount(|subs|);
  }

  /** A non-empty list is written as the header, the count line and the blocks. */
  lemma ListingShape(subs: seq<Subscription>)
    requires forall j :: 0 <= j < |subs| ==> PanelPrintable(subs[j])
    requires subs != []
    ensures PanelWrites(Success(Some(SubscriptionList(Some(subs))))) == [ListingHeader, FoundLine(|subs|)] + PanelBlocks(subs)
  {
    var blocks, found := PanelBlocks(subs), FoundLine(|subs|);
    assert PanelWrites(Success(Some(SubscriptionList(Some(subs))))) == [ListingHeader] + ([found] + blocks);
    PairThenRest(ListingHeader, found, blocks);
  }

  lemma PairThenRest<T>(a: T, b: T, rest: seq<T>)
    ensures [a] + ([b] + rest) == [a, b] + rest
  {
  }

  /** The count line shows n in decimal, and that text reads back as n. */
  lemma FoundLineCount(n: nat)
    ensures Unwrap(FoundLine(n), "[green]Found ", " subscription(s):[white]\n") == Some(NatToString(n))
    ensures ParseDecimal(NatToString(n)) == n
  {
    UnwrapWrap("[green]Found ", NatToString(n), " subscription(s):[white]\n");
    ParseNatToString(n);
  }

  /** Every outcome without subscriptions writes exactly two lines, and the three "none" lines all differ. */
  lemma EmptyOutcomesDistinct(r: Response)
    requires ResponsePrintable(r)
    ensures |PanelWrites(r)| == 2 <==>
              !(r.Success? && r.value.Some? && r.value.value.value.Some? && r.value.value.value.value != [])
    ensures NilResponseLine != NilValuesLine && NilValuesLine != NoneActiveLine && NilResponseLine != NoneActiveLine
  {
    assert |NilResponseLine| == 57 && |NilValuesLine| == 70 && |NoneActiveLine| == 45;
  }

  // ---------------------------------------------------------------- standard output

  /** The fields the console listing dereferences. */
  predicate ConsolePrintable(s: Subscription) {
    && s.id.Some? && s.changeType.Some? && s.expiration.Some? && s.resource.Some?
    && s.applicationId.Some? && s.creatorId.Some? && s.notificationUrl.Some?
  }

  function ConsoleBlock(s: Subscription): seq<string>
    requires ConsolePrintable(s)
  {
    [ "SubscriptionId: " + s.id.value + "\n",
      "  ChangeType: " + s.changeType.value + "\n",
      "  ExpirationDateTime: " + s.expiration.value.text + "\n",
      "  Resource: " + s.resource.value + "\n",
      "  ApplicationId: " + s.applicationId.value + "\n",
      "  Additional Data length: " + NatToString(s.additionalData) + "\n",
      "  CreatorId: " + s.creatorId.value + "\n",
      "  NotificationURL: " + s.notificationUrl.value + "\n",
      "\n" ]
  }

  function ConsoleBlocks(subs: seq<Subscription>): seq<string>
    requires forall k :: 0 <= k < |subs| ==> ConsolePrintable(subs[k])
  {
    if subs == [] then [] else ConsoleBlocks(subs[..|subs| - 1]) + ConsoleBlock(subs[|subs| - 1])
  }

  /**
   * listSubscriptions: a failed call panics, a nil response prints one line,
   * a nil value list prints nothing, and otherwise each subscription gets a
   * nine-line block.
   */
  method ListSubscriptions(stdout: Io.Buffer, response: Response) returns (exit: Io.Exit<()>)
    requires response.Success? && response.value.Some? && response.value.value.value.Some? ==>
      var subs := response.value.value.value.value; forall k :: 0 <= k < |subs| ==> ConsolePrintable(subs[k])
    modifies stdout
    ensures stdout.row == old(stdout.row)
    ensures response.Failure? ==>
      exit == Io.Panicked("Error making Graph call: " + response.error) && stdout.chunks == old(stdout.chunks)
    ensures response.Success? ==> exit == Io.Returned(())
    ensures response == Success(None) ==> stdout.chunks == old(stdout.chunks) + ["No subscriptions found\n"]
    ensures response == Success(Some(SubscriptionList(None))) ==> stdout.chunks == old(stdout.chunks)
    ensures response.Success? && response.value.Some? && response.value.value.value.Some? ==>
      stdout.chunks == old(stdout.chunks) + ConsoleBlocks(response.value.value.value.value)
  {
    if response.Failure? {
      return Io.Panicked("Error making Graph call: " + response.error);
    }
    exit := Io.Returned(());
    if response.value.None? {
      stdout.Write("No subscriptions found\n");
      return;
    }
    var subs := if response.value.value.value.Some? then response.value.value.value.value else [];
    for i := 0 to |subs|
      invariant stdout.chunks == old(stdout.chunks) + ConsoleBlocks(subs[..i])
      invariant stdout.row == old(stdout.row)
    {
      assert subs[..i + 1][..i] == subs[..i];
      WriteConsoleBlock(stdout, subs[i]);
    }
    assert subs[..|subs|] == subs;
  }

  /** The body of listSubscriptions' loop. */
  method WriteConsoleBlock(stdout: Io.Buffer, s: Subscription)
    requires ConsolePrintable(s)
    modifies stdout
    ensures stdout.chunks == old(stdout.chunks) + ConsoleBlock(s) && stdout.row == old(stdout.row)
  {
    stdout.Write("SubscriptionId: " + s.id.value + "\n");
    stdout.Write("  ChangeType: " + s.changeType.value + "\n");
    stdout.Write("  ExpirationDateTime: " + s.expiration.value.text + "\n");
    stdout.Write("  Resource: " + s.resource.value + "\n");
    stdout.Write("  ApplicationId: " + s.applicationId.value + "\n");
    stdout.Write("  Additional Data length: " + NatToString(s.additionalData) + "\n");
    stdout.Write("  CreatorId: " + s.creatorId.value + "\n");
    stdout.Write("  NotificationURL: " + s.notificationUrl.value + "\n");
    stdout.Write("\n");
  }

  /** The k-th subscription's console block is the k-th run of nine lines, and its size reads back. */
  lemma {:induction false} ConsoleBlockAt(subs: seq<Subscription>, k: nat)
    requires forall j :: 0 <= j < |subs| ==> ConsolePrintable(subs[j])
    requires k < |subs|
    ensures |ConsoleBlocks(subs)| == 9 * |subs|
    ensures ConsoleBlocks(subs)[9 * k..9 * k + 9] == ConsoleBlock(subs[k])
  {
    var init := subs[..|subs| - 1];
    if k < |subs| - 1 {
      ConsoleBlockAt(init, k);
    } else if init != [] {
      ConsoleBlockAt(init, 0);
    }
  }

  /** The additional-data line shows the map's size in decimal, which reads back as that size. */
  lemma AdditionalDataLength(s: Subscription)
    requires ConsolePrintable(s)
    ensures Unwrap(ConsoleBlock(s)[5], "  Additional Data length: ", "\n") == Some(NatToString(s.additionalData))
    ensures ParseDecimal(NatToString(s.additionalData)) == s.additionalData
  {
    UnwrapWrap("  Additional Data length: ", NatToString(s.additionalData), "\n");
    ParseNatToString(s.additionalData);
  }
}
