/** The transfer dialog of frontend/app/components/TicketTransferModal.tsx: the recipient
    check, the error state around it, and the calls it makes. The contract call
    `transferTicket` and the two callbacks are not modelled; which of them throws, if any,
    is a parameter, and the calls the dialog makes are recorded in order. */
module TicketTransfer {
  import opened Types
  import opened JsString
  import Config

  const EmptyRecipientMessage := "Please enter a recipient address"
  const InvalidRecipientMessage := "Please enter a valid Ethereum address"
  const TransferFailedMessage := "Transfer failed. Please try again."

  /** The ticket the dialog is opened for. */
  datatype TicketRef = TicketRef(id: string, eventId: string, eventTitle: string, tokenId: int, eventAddress: string)

  /** How the `try` block of `handleTransfer` ended: every step completed, the awaited
      `transferTicket` call threw, `onTransferComplete` threw after the transfer, or
      `onClose` threw after both. */
  datatype TransferOutcome =
    | Completed
    | Threw(thrown: Thrown)
    | CompleteThrew(thrown: Thrown)
    | CloseThrew(thrown: Thrown)

  /** A call the dialog makes, in the order it makes them. */
  datatype Call = TransferTicket(recipient: string, tokenId: int) | TransferComplete | Close

  /** The recipient check of `handleTransfer`: empty first, then the "0x" prefix and the
      length of 42. None means the recipient passes. */
  function RecipientError(recipient: string): (error: Option<string>)
    ensures recipient == "" ==> error == Some(EmptyRecipientMessage)
    ensures recipient != "" ==>
      (error.None? <==> StartsWith(recipient, "0x") && |recipient| == 42)
    ensures recipient != "" && error.Some? ==> error.value == InvalidRecipientMessage
  {
    if recipient == "" then Some(EmptyRecipientMessage)
    else if !StartsWith(recipient, "0x") || |recipient| != 42 then Some(InvalidRecipientMessage)
    else None
  }

  /** A recipient passes exactly when it is "0x" followed by 40 more characters. */
  lemma RecipientShape(recipient: string)
    ensures RecipientError(recipient).None? <==> |recipient| == 42 && recipient[..2] == "0x"
  {
  }

  /** Every address the contract configuration accepts passes the recipient check, and so
      does the zero address, which the configuration rejects: the dialog does not stop a
      transfer to the zero address. */
  lemma RecipientCheckIsLooser(recipient: string)
    ensures Config.IsValidContractAddress(recipient) ==> RecipientError(recipient).None?
    ensures RecipientError(Config.ZeroAddress).None? && !Config.IsValidContractAddress(Config.ZeroAddress)
  {
    Config.ZeroAddressDigits();
  }

  /** `BigInt(ticket?.tokenId || 0)`: the ticket's token id, 0 without a ticket. For a
      present ticket `|| 0` only replaces a token id of 0 by 0. */
  function TokenIdOf(ticket: Option<TicketRef>): (id: int)
    ensures ticket.None? ==> id == 0
    ensures ticket.Some? ==> id == ticket.value.tokenId
  {
    match ticket
    case None => 0
    case Some(t) => t.tokenId
  }

  /** The calls one press of Transfer makes: none when the recipient fails the check;
      otherwise the transfer, then the completion callback and close, each step reached
      only when the one before it did not throw. */
  function TransferCalls(recipient: string, ticket: Option<TicketRef>, outcome: TransferOutcome): (calls: seq<Call>)
    ensures RecipientError(recipient).Some? ==> calls == []
    ensures RecipientError(recipient).None? ==> |calls| >= 1 && calls[0] == TransferTicket(recipient, TokenIdOf(ticket))
    ensures RecipientError(recipient).None? && outcome.Completed? ==> calls[1..] == [TransferComplete, Close]
    ensures RecipientError(recipient).None? && outcome.Threw? ==>
      calls == [TransferTicket(recipient, TokenIdOf(ticket))]
    ensures RecipientError(recipient).None? && outcome.CompleteThrew? ==>
      calls == [TransferTicket(recipient, TokenIdOf(ticket)), TransferComplete]
    ensures RecipientError(recipient).None? && outcome.CloseThrew? ==> calls[1..] == [TransferComplete, Close]
    ensures outcome.Threw? ==> Close !in calls && TransferComplete !in calls
  {
    if RecipientError(recipient).Some? then []
    else
      [TransferTicket(recipient, TokenIdOf(ticket))]
        + match outcome
          case Completed => [TransferComplete, Close]
          case Threw(_) => []
          case CompleteThrew(_) => [TransferComplete]
          case CloseThrew(_) => [TransferComplete, Close]
  }

  /** The dialog is closed only after the transfer and the completion callback, in that
      order, and the completion callback is reached only after the transfer. */
  lemma CloseFollowsCompletion(recipient: string, ticket: Option<TicketRef>, outcome: TransferOutcome)
    ensures Close in TransferCalls(recipient, ticket, outcome) ==>
      TransferCalls(recipient, ticket, outcome) == [TransferTicket(recipient, TokenIdOf(ticket)), TransferComplete, Close]
    ensures TransferComplete in TransferCalls(recipient, ticket, outcome) ==>
      TransferCalls(recipient, ticket, outcome)[..2] == [TransferTicket(recipient, TokenIdOf(ticket)), TransferComplete]
  {
    var calls := TransferCalls(recipient, ticket, outcome);
    if RecipientError(recipient).None? && !outcome.Threw? {
      assert calls == [calls[0]] + calls[1..];
    }
  }

  /** The error shown after one press of Transfer: the check's message, none when every
      step completed, and otherwise the thrown message (or the fallback), whichever step
      threw. */
  function ErrorAfterTransfer(recipient: string, outcome: TransferOutcome): (error: Option<string>)
    ensures RecipientError(recipient).Some? ==> error == RecipientError(recipient)
    ensures RecipientError(recipient).None? ==> (error.None? <==> outcome.Completed?)
    ensures RecipientError(recipient).None? && !outcome.Completed? ==>
      error == Some(MessageOf(outcome.thrown, TransferFailedMessage))
  {
    if RecipientError(recipient).Some? then RecipientError(recipient)
    else match outcome
      case Completed => None
      case Threw(t) => Some(MessageOf(t, TransferFailedMessage))
      case CompleteThrew(t) => Some(MessageOf(t, TransferFailedMessage))
      case CloseThrew(t) => Some(MessageOf(t, TransferFailedMessage))
  }

  /** `if (!isOpen || !ticket) return null` */
  predicate RendersNothing(isOpen: bool, ticket: Option<TicketRef>) {
    !isOpen || ticket.None?
  }

  /** A dialog that renders has its ticket, so the transfer sends the ticket's own token
      id and the `|| 0` fallback never applies. */
  lemma RenderedDialogUsesTicketId(isOpen: bool, ticket: Option<TicketRef>)
    requires !RendersNothing(isOpen, ticket)
    ensures isOpen && ticket.Some?
    ensures TokenIdOf(ticket) == ticket.value.tokenId
  {
  }

  /** The Transfer button is disabled while a transfer runs or the recipient is empty. */
  predicate TransferButtonDisabled(isTransferring: bool, recipient: string) {
    isTransferring || recipient == ""
  }

  /** A press of the enabled button never gets the empty-recipient message. */
  lemma EnabledButtonSkipsEmptyCheck(isTransferring: bool, recipient: string)
    requires !TransferButtonDisabled(isTransferring, recipient)
    ensures RecipientError(recipient) != Some(EmptyRecipientMessage)
  {
  }

  /** The dialog's state: the typed recipient, the error, and the calls made so far. */
  class TicketTransferModal {
    var recipientAddress: string
    var transferError: Option<string>
    var calls: seq<Call>

    constructor ()
      ensures recipientAddress == "" && transferError.None? && calls == []
    {
      recipientAddress := "";
      transferError := None;
      calls := [];
    }

    /** `handleTransfer`: the recipient is checked, empty first; a failing check sets its
        message and makes no call. A passing one clears the error, calls `transferTicket`
        with the recipient and the token id, then `onTransferComplete`, then `onClose`.
        Whichever of the three throws ends the `try`: the calls after it are skipped and
        the `catch` sets the thrown message. */
    method HandleTransfer(ticket: Option<TicketRef>, outcome: TransferOutcome)
      modifies this`transferError, this`calls
      ensures transferError == ErrorAfterTransfer(recipientAddress, outcome)
      ensures calls == old(calls) + TransferCalls(recipientAddress, ticket, outcome)
    {
      if recipientAddress == "" {
        transferError := Some(EmptyRecipientMessage);
        return;
      }
      if !StartsWith(recipientAddress, "0x") || |recipientAddress| != 42 {
        transferError := Some(InvalidRecipientMessage);
        return;
      }
      transferError := None;
      var tokenId := if ticket.Some? then ticket.value.tokenId else 0;
      calls := calls + [TransferTicket(recipientAddress, tokenId)];
      if outcome.Threw? {
        transferError := Some(MessageOf(outcome.thrown, TransferFailedMessage));
        return;
      }
      calls := calls + [TransferComplete];
      if outcome.CompleteThrew? {
        transferError := Some(MessageOf(outcome.thrown, TransferFailedMessage));
        return;
      }
      calls := calls + [Close];
      if outcome.CloseThrew? {
        transferError := Some(MessageOf(outcome.thrown, TransferFailedMessage));
      }
    }

    /** Typing in the recipient field: the text is stored and an error is cleared. An
        empty message is falsy in `if (transferError)` and is left as it is. */
    method EditRecipient(text: string)
      modifies this`recipientAddress, this`transferError
      ensures recipientAddress == text
      ensures old(transferError) == Some("") ==> transferError == Some("")
      ensures old(transferError) != Some("") ==> transferError.None?
    {
      recipientAddress := text;
      if transferError.Some? && transferError.value != "" {
        transferError := None;
      }
    }
  }
}
