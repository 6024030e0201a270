/**
 Settling SSI reservations from transaction results that are delivered until they are acknowledged:
 src/credits/services/ssi-transaction-result.consumer.ts and settleSsiTransaction.
 */
module Settlement {
  import opened Prelude
  import opened CreditWallet
  import opened CreditCommands
  import opened Decimal

  datatype ResultStatus = Succeeded | Failed | Unknown

  // The decoded JSON; fields may be absent or of another type (None).
  datatype RawItem = RawItem(serviceType: Option<string>, transactionJobId: Option<string>,
    reservationId: Option<string>)

  datatype RawResult = RawResult(
    schemaVersion: Option<int>, eventId: Option<string>, status: Option<string>, items: Option<seq<Option<RawItem>>>,
    reason: Option<string>, rawLog: Option<string>, code: Option<int>)

  datatype Item = Item(transactionJobId: string, reservationId: string)

  datatype TransactionResult = TransactionResult(eventId: string, status: ResultStatus, items: seq<Item>)

  // How a reservation ends; a rollback always carries a reason.
  datatype Terminal = CommitReservation | RollbackReservation(reason: string)

  datatype SettleCommand = SettleCommand(commandId: string, terminal: Terminal, reservationId: string,
    transactionJobId: string)

  // `||` on optional strings: absent and empty fall through.
  function Or(first: Option<string>, second: Option<string>): Option<string> {
    if NonEmpty(first).Some? then first else second
  }

  function CodeReason(code: Option<int>): Option<string> {
    if code.None? || !IsSafeInteger(code.value) then None
    else
      var digits := if code.value < 0 then "-" + ToString(-code.value) else ToString(code.value);
      Some("blockchain_transaction_code_" + digits)
  }

  // The reason a failed result gives: its own, else the raw log, else the code.
  function FailureReason(raw: RawResult): Option<string> {
    Or(raw.reason, Or(raw.rawLog, CodeReason(raw.code)))
  }

  // A success commits, and a failure rolls back with the reason, trimmed, or the default if there is none but blanks.
  function TerminalFor(succeeded: bool, reason: Option<string>): (t: Terminal)
    ensures t.CommitReservation? <==> succeeded
    ensures !succeeded && reason.Some? && Trim(reason.value) != "" ==> t.reason == Trim(reason.value)
    ensures !succeeded && (reason.None? || Trim(reason.value) == "") ==> t.reason == "blockchain_transaction_failed"
  {
    if succeeded then CommitReservation
    else RollbackReservation(
      if reason.Some? && Trim(reason.value) != "" then Trim(reason.value) else "blockchain_transaction_failed")
  }

  function TerminalOf(raw: RawResult): Terminal {
    TerminalFor(raw.status == Some("SUCCEEDED"), if raw.status == Some("FAILED") then FailureReason(raw) else None)
  }

  function ParseStatus(status: Option<string>): Option<ResultStatus> {
    if status == Some("SUCCEEDED") then Some(Succeeded)
    else if status == Some("FAILED") then Some(Failed)
    else if status == Some("UNKNOWN") then Some(Unknown)
    else None
  }

  function NonEmpty(s: Option<string>): Option<string> {
    if s == Some("") then None else s
  }

  function ParseItem(item: Option<RawItem>): Option<Item> {
    if item.None? || item.value.serviceType != Some("SSI_API") then None
    else
      match (NonEmpty(item.value.transactionJobId), NonEmpty(item.value.reservationId))
      case (Some(jobId), Some(reservationId)) => Some(Item(jobId, reservationId))
      case _ => None
  }

  predicate ValidEnvelope(raw: RawResult) {
    && raw.schemaVersion == Some(1)
    && NonEmpty(raw.eventId).Some?
    && ParseStatus(raw.status).Some?
    && raw.items.Some? && raw.items.value != []
    && forall i :: 0 <= i < |raw.items.value| ==> ParseItem(raw.items.value[i]).Some?
  }

  function ItemsOf(raw: RawResult): seq<Item>
    requires ValidEnvelope(raw)
  {
    seq(|raw.items.value|, i requires 0 <= i < |raw.items.value| => ParseItem(raw.items.value[i]).value)
  }

  // What it takes for a result to lead to commands, and which items it then has, in the fields of the message.
  lemma SettlesIff(raw: RawResult)
    ensures Settles(raw) <==>
            && raw.schemaVersion == Some(1) && raw.eventId.Some? && raw.eventId.value != ""
            && raw.status in {Some("SUCCEEDED"), Some("FAILED")} && raw.items.Some? && |raw.items.value| > 0
            && forall i :: 0 <= i < |raw.items.value| ==>
                 && raw.items.value[i].Some?
                 && var item := raw.items.value[i].value;
                    && item.serviceType == Some("SSI_API")
                    && item.transactionJobId.Some? && item.transactionJobId.value != ""
                    && item.reservationId.Some? && item.reservationId.value != ""
    ensures Settles(raw) ==>
              && |ItemsOf(raw)| == |raw.items.value|
              && forall i :: 0 <= i < |raw.items.value| ==>
                   && ItemsOf(raw)[i].transactionJobId == raw.items.value[i].value.transactionJobId.value
                   && ItemsOf(raw)[i].reservationId == raw.items.value[i].value.reservationId.value
  {
  }

  // The reason a rollback gives: the first of reason, raw log and code that is there, trimmed, or else the default.
  ghost predicate GivesReason(raw: RawResult, reason: string) {
    var given :=
      if raw.reason.Some? && raw.reason.value != "" then raw.reason.value
      else if raw.rawLog.Some? && raw.rawLog.value != "" then raw.rawLog.value
      else if raw.code.Some? && IsSafeInteger(raw.code.value) then
        "blockchain_transaction_code_" +
        (if raw.code.value < 0 then "-" + ToString(-raw.code.value) else ToString(raw.code.value))
      else "";
    reason == if Trim(given) != "" then Trim(given) else "blockchain_transaction_failed"
  }

  // What a command must say of its item: commit the reservation after a success, roll it back after a failure.
  ghost predicate Concludes(c: SettleCommand, raw: RawResult, item: Item) {
    && c.reservationId == Trim(item.reservationId) && c.transactionJobId == Trim(item.transactionJobId)
    && if raw.status == Some("SUCCEEDED")
       then c.terminal == CommitReservation && c.commandId == SettleCommandId(c.reservationId, true)
       else && raw.status == Some("FAILED") && c.commandId == SettleCommandId(c.reservationId, false)
            && c.terminal.RollbackReservation? && GivesReason(raw, c.terminal.reason)
  }

  lemma TerminalConcludes(raw: RawResult, item: Item)
    requires raw.status in {Some("SUCCEEDED"), Some("FAILED")}
    ensures Concludes(CommandOf(item, TerminalOf(raw)), raw, item)
  {
    assert Trim("") == "";
  }

  method ParseResult(raw: RawResult) returns (r: Option<TransactionResult>)
    ensures r.Some? <==> ValidEnvelope(raw)
    ensures r.Some? ==> r.value == TransactionResult(raw.eventId.value, ParseStatus(raw.status).value, ItemsOf(raw))
  {
    var status := ParseStatus(raw.status);
    if raw.schemaVersion != Some(1) || NonEmpty(raw.eventId).None? || status.None? {
      return None;
    }
    if raw.items.None? || raw.items.value == [] {
      return None;
    }
    var items := [];
    for i := 0 to |raw.items.value|
      invariant |items| == i
      invariant forall k :: 0 <= k < i ==> ParseItem(raw.items.value[k]) == Some(items[k])
    {
      var item := ParseItem(raw.items.value[i]);
      if item.None? {
        return None;
      }
      items := items + [item.value];
    }
    r := Some(TransactionResult(raw.eventId.value, status.value, items));
  }

  // An item whose ids are blank after trimming cannot be settled.
  predicate Settleable(item: Item) {
    Trim(item.transactionJobId) != "" && Trim(item.reservationId) != ""
  }

  function CommandOf(item: Item, terminal: Terminal): SettleCommand {
    var reservationId := Trim(item.reservationId);
    SettleCommand(SettleCommandId(reservationId, terminal.CommitReservation?), terminal, reservationId,
      Trim(item.transactionJobId))
  }

  function Commands(items: seq<Item>, terminal: Terminal): seq<SettleCommand> {
    seq(|items|, i requires 0 <= i < |items| => CommandOf(items[i], terminal))
  }

  method SettleSsiTransaction(queue: CommandQueue<SettleCommand>, item: Item, succeeded: bool, reason: Option<string>)
    returns (r: Result<(), CommandError>)
    modifies queue
    ensures r.Ok? <==> Settleable(item) && old(queue.capacity) > 0
    ensures r == Err(MissingSettlementId) <==> Trim(item.transactionJobId) == "" || Trim(item.reservationId) == ""
    ensures queue.jobs ==
            if r.Ok? then old(queue.jobs) + [CommandOf(item, TerminalFor(succeeded, reason))] else old(queue.jobs)
    ensures r.Ok? ==> queue.capacity == old(queue.capacity) - 1
  {
    var transactionJobId := Trim(item.transactionJobId);
    var reservationId := Trim(item.reservationId);
    if transactionJobId == "" || reservationId == "" {
      return Err(MissingSettlementId);
    }
    var terminal := TerminalFor(succeeded, reason);
    var ok := queue.Add(SettleCommand(SettleCommandId(reservationId, succeeded), terminal, reservationId,
      transactionJobId));
    if !ok {
      return Err(QueueFailure);
    }
    r := Ok(());
  }

  // The first item from a position on that cannot be settled, or the end.
  function SettleableFrom(items: seq<Item>, from: nat): (n: nat)
    requires from <= |items|
    ensures from <= n <= |items|
    ensures forall i :: from <= i < n ==> Settleable(items[i])
    ensures n < |items| ==> !Settleable(items[n])
    decreases |items| - from
  {
    if from == |items| || !Settleable(items[from]) then from else SettleableFrom(items, from + 1)
  }

  // How many leading items can be settled.
  function SettleablePrefix(items: seq<Item>): nat {
    SettleableFrom(items, 0)
  }

  function Min(a: nat, b: nat): nat {
    if a <= b then a else b
  }

  lemma PrefixStops(items: seq<Item>, i: nat)
    requires i < |items| && i <= SettleablePrefix(items)
    ensures Settleable(items[i]) <==> i < SettleablePrefix(items)
  {
  }

  lemma CommandsUpTo(items: seq<Item>, terminal: Terminal, i: nat)
    requires i < |items|
    ensures Commands(items, terminal)[..i + 1] == Commands(items, terminal)[..i] + [CommandOf(items[i], terminal)]
  {
  }

  method SettleAll(queue: CommandQueue<SettleCommand>, items: seq<Item>, succeeded: bool, reason: Option<string>)
    returns (settled: bool)
    modifies queue
    ensures var n := Min(SettleablePrefix(items), old(queue.capacity));
            && queue.jobs == old(queue.jobs) + Commands(items, TerminalFor(succeeded, reason))[..n]
            && (settled <==> n == |items|)
  {
    ghost var terminal := TerminalFor(succeeded, reason);
    ghost var commands, n := Commands(items, terminal), Min(SettleablePrefix(items), queue.capacity);
    for i := 0 to |items|
      invariant i <= n
      invariant queue.jobs == old(queue.jobs) + commands[..i]
      invariant queue.capacity == old(queue.capacity) - i
    {
      CommandsUpTo(items, terminal, i);
      PrefixStops(items, i);
      var r := SettleSsiTransaction(queue, items[i], succeeded, reason);
      if r.Err? {
        return false;
      }
    }
    settled := true;
  }

  // One delivery. An invalid message is discarded and an UNKNOWN one kept for reconciliation; both are
  // acknowledged and publish nothing. Otherwise a prefix is published, and only the whole is acknowledged.
  method Consume(raw: RawResult, queue: CommandQueue<SettleCommand>) returns (acked: bool, ghost a: Attempt)
    modifies queue
    ensures a.acked == acked
    ensures !Settles(raw) ==> acked && queue.jobs == old(queue.jobs)
    ensures Settles(raw) ==>
              && old(queue.jobs) <= queue.jobs && Delivers(raw, queue.jobs[|old(queue.jobs)|..], a)
              && a.published == Min(SettleablePrefix(ItemsOf(raw)), old(queue.capacity))
              && (acked <==> a.published == |ItemsOf(raw)|)
    // In the words of the message: each added command concludes its item.
    ensures Settles(raw) ==>
              && |queue.jobs| <= |old(queue.jobs)| + |ItemsOf(raw)|
              && (forall k :: |old(queue.jobs)| <= k < |queue.jobs| ==>
                    Concludes(queue.jobs[k], raw, ItemsOf(raw)[k - |old(queue.jobs)|]))
    ensures raw.status == Some("SUCCEEDED") ==>
              forall k :: |old(queue.jobs)| <= k < |queue.jobs| ==>
                && queue.jobs[k].terminal == CommitReservation
                && queue.jobs[k].commandId == SettleCommandId(queue.jobs[k].reservationId, true)
    ensures raw.status == Some("FAILED") ==>
              forall k :: |old(queue.jobs)| <= k < |queue.jobs| ==>
                && queue.jobs[k].commandId == SettleCommandId(queue.jobs[k].reservationId, false)
                && queue.jobs[k].terminal.RollbackReservation? && GivesReason(raw, queue.jobs[k].terminal.reason)
  {
    var result := ParseResult(raw);
    if result.None? || result.value.status.Unknown? {
      return true, Attempt(0, true);
    }
    var status := result.value.status;
    a := Attempt(Min(SettleablePrefix(result.value.items), queue.capacity), false);
    var reason := if status.Failed? then FailureReason(raw) else None;
    acked := SettleAll(queue, result.value.items, status.Succeeded?, reason);
    a := a.(acked := acked);
    forall i | 0 <= i < |ItemsOf(raw)|
      ensures Concludes(Commands(ItemsOf(raw), TerminalOf(raw))[i], raw, ItemsOf(raw)[i])
    {
      TerminalConcludes(raw, ItemsOf(raw)[i]);
    }
  }

  // --- Redelivery ---

  // One delivery as the queue sees it: how many commands took effect, and whether the message was acknowledged.
  // The command at which it failed may or may not have taken effect.
  datatype Attempt = Attempt(published: nat, acked: bool)

  ghost predicate Possible(items: seq<Item>, a: Attempt) {
    && a.published <= SettleablePrefix(items)
    && (a.acked ==> a.published == |items|)
  }

  // The results that lead to commands.
  predicate Settles(raw: RawResult) {
    ValidEnvelope(raw) && ParseStatus(raw.status) != Some(Unknown)
  }

  // What one delivery adds to the command queue, whatever others add before, after and in between.
  ghost predicate Delivers(raw: RawResult, own: seq<SettleCommand>, a: Attempt) {
    && Settles(raw) && Possible(ItemsOf(raw), a)
    && own == Commands(ItemsOf(raw), TerminalOf(raw))[..a.published]
  }

  // The queue is shared with grant commands, with commands of other results, and with other deliveries of this one.
  datatype QueueEntry = Foreign | Added(delivery: nat, command: SettleCommand)

  // What one delivery has added, in order.
  function Own(queue: seq<QueueEntry>, d: nat): seq<SettleCommand> {
    if queue == [] then []
    else (if queue[0].Added? && queue[0].delivery == d then [queue[0].command] else []) + Own(queue[1..], d)
  }

  lemma {:induction false} OwnIff(queue: seq<QueueEntry>, d: nat, command: SettleCommand)
    ensures command in Own(queue, d) <==> Added(d, command) in queue
    decreases |queue|
  {
    if queue == [] {
    } else {
      OwnIff(queue[1..], d, command);
      assert queue == [queue[0]] + queue[1..];
    }
  }

  function AddedIds(queue: seq<QueueEntry>): set<string> {
    set e | e in queue && e.Added? :: e.command.commandId
  }

  // One terminal command for each distinct trimmed reservation.
  function ReservationCommands(items: seq<Item>, isCommit: bool): set<string> {
    set i | 0 <= i < |items| :: SettleCommandId(Trim(items[i].reservationId), isCommit)
  }

  lemma IdOfCommand(raw: RawResult, command: SettleCommand)
    requires Settles(raw) && command in Commands(ItemsOf(raw), TerminalOf(raw))
    ensures command.commandId in ReservationCommands(ItemsOf(raw), raw.status == Some("SUCCEEDED"))
    ensures exists i :: 0 <= i < |ItemsOf(raw)| && Concludes(command, raw, ItemsOf(raw)[i])
  {
    var i :| 0 <= i < |ItemsOf(raw)| && command == Commands(ItemsOf(raw), TerminalOf(raw))[i];
    CommandOfReservation(raw, i);
    TerminalConcludes(raw, ItemsOf(raw)[i]);
  }

  lemma CommandOfReservation(raw: RawResult, i: nat)
    requires Settles(raw) && i < |ItemsOf(raw)|
    ensures var command := CommandOf(ItemsOf(raw)[i], TerminalOf(raw));
            && command in Commands(ItemsOf(raw), TerminalOf(raw))
            && command.commandId ==
               SettleCommandId(Trim(ItemsOf(raw)[i].reservationId), raw.status == Some("SUCCEEDED"))
  {
    assert Commands(ItemsOf(raw), TerminalOf(raw))[i] == CommandOf(ItemsOf(raw)[i], TerminalOf(raw));
  }

  // Whatever deliveries of a result have added concludes one of its items.
  lemma AddedAreReservations(raw: RawResult, queue: seq<QueueEntry>, attempts: seq<Attempt>)
    requires Settles(raw)
    requires forall d :: 0 <= d < |attempts| ==> Delivers(raw, Own(queue, d), attempts[d])
    requires forall e :: e in queue && e.Added? ==> e.delivery < |attempts|
    ensures AddedIds(queue) <= ReservationCommands(ItemsOf(raw), raw.status == Some("SUCCEEDED"))
    ensures forall e :: e in queue && e.Added? ==>
              exists i :: 0 <= i < |ItemsOf(raw)| && Concludes(e.command, raw, ItemsOf(raw)[i])
  {
    forall e | e in queue && e.Added?
      ensures e.command.commandId in ReservationCommands(ItemsOf(raw), raw.status == Some("SUCCEEDED"))
      ensures exists i :: 0 <= i < |ItemsOf(raw)| && Concludes(e.command, raw, ItemsOf(raw)[i])
    {
      assert e == Added(e.delivery, e.command);
      OwnIff(queue, e.delivery, e.command);
      assert Delivers(raw, Own(queue, e.delivery), attempts[e.delivery]);
      IdOfCommand(raw, e.command);
    }
  }

  // Once one of any number of deliveries has been acknowledged, however many failed midway, and whatever else the queue
  // has been given before, between and after their commands: the command ids the deliveries have added are those of
  // the items' trimmed reservations, all commits if the result is a success and all rollbacks if it is a failure.
  lemma SettledExactlyOnce(raw: RawResult, queue: seq<QueueEntry>, attempts: seq<Attempt>, acked: nat)
    requires Settles(raw) && acked < |attempts| && attempts[acked].acked
    requires forall d :: 0 <= d < |attempts| ==> Delivers(raw, Own(queue, d), attempts[d])
    requires forall e :: e in queue && e.Added? ==> e.delivery < |attempts|
    ensures AddedIds(queue) == ReservationCommands(ItemsOf(raw), raw.status == Some("SUCCEEDED"))
  {
    var items, isCommit := ItemsOf(raw), raw.status == Some("SUCCEEDED");
    AddedAreReservations(raw, queue, attempts);
    assert Delivers(raw, Own(queue, acked), attempts[acked]);
    assert Own(queue, acked) == Commands(items, TerminalOf(raw));
    forall i | 0 <= i < |items|
      ensures SettleCommandId(Trim(items[i].reservationId), isCommit) in AddedIds(queue)
    {
      CommandOfReservation(raw, i);
      OwnIff(queue, acked, CommandOf(items[i], TerminalOf(raw)));
      assert Added(acked, CommandOf(items[i], TerminalOf(raw))).command.commandId in AddedIds(queue);
    }
  }

  // Two items share a command id exactly when they share the trimmed reservation, and no reservation ever gets
  // the opposite terminal command.
  lemma OneCommandPerReservation(items: seq<Item>, t: Terminal, u: Terminal, i: nat, j: nat)
    requires i < |items| && j < |items|
    ensures CommandOf(items[i], t).commandId == CommandOf(items[j], u).commandId
            <==> Trim(items[i].reservationId) == Trim(items[j].reservationId)
                 && (t.CommitReservation? <==> u.CommitReservation?)
  {
    var r, q := Trim(items[i].reservationId), Trim(items[j].reservationId);
    if SettleCommandId(r, t.CommitReservation?) == SettleCommandId(q, u.CommitReservation?) {
      SettleCommandIdInjective(r, t.CommitReservation?, q, u.CommitReservation?);
    }
  }

  // An item that is blank after trimming passes the envelope check but can never be settled: the message is
  // acknowledged in some attempt exactly if no item is blank, and otherwise requeued for ever.
  lemma AckableIffNoBlankItem(items: seq<Item>)
    ensures (exists a: Attempt :: Possible(items, a) && a.acked)
            <==> forall i :: 0 <= i < |items| ==>
                   Trim(items[i].transactionJobId) != "" && Trim(items[i].reservationId) != ""
  {
    if forall i :: 0 <= i < |items| ==> Settleable(items[i]) {
      assert Possible(items, Attempt(|items|, true));
    }
  }

  lemma BlankReservationIsRequeuedForever(a: Attempt)
    ensures var items := [Item("job-1", "  ")];
            ParseItem(Some(RawItem(Some("SSI_API"), Some("job-1"), Some("  ")))) == Some(items[0]) &&
            (Possible(items, a) ==> !a.acked)
  {
    var blank := "  ";
    assert TrimStart(blank) == TrimStart(blank[1..]) == TrimStart("") == "";
    assert !Settleable(Item("job-1", blank));
    assert SettleablePrefix([Item("job-1", blank)]) == 0;
  }
}
