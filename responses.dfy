/** `CommandResponseObject` (src/main.rs:137-265): what a handler hands back to the event loop.
    Message text is modelled by its content: `Text` names each message the bot builds and
    carries the values it shows, not the characters of its layout. */
module Responses {
  import opened Wrappers
  import opened Types

  datatype ButtonStyle = Primary | Secondary | Danger

  datatype Button = Button(caption: string, customId: string, style: ButtonStyle)

  /** The buttons of a `CreateComponents` (empty for `CreateComponents::default()`). */
  type Components = seq<Button>

  /** Which ledger column a transaction moves. */
  datatype TxKind = CirculationTx | ReserveTx

  /** The three ways a record's growth is described in the records table. */
  datatype Performance = HoldingSteady | InDecline | GainingValue

  /** The ANSI colour a records row is drawn in. */
  datatype Colour = Bold | Red | Green

  /** One column heading of the currency table; the sorted column is drawn highlighted. */
  datatype HeaderCell = HeaderCell(caption: string, highlighted: bool)

  /** One line of the records table. */
  datatype RecordLine = RecordLine(date: int, opening: real, closing: real, delta: real,
                                   performance: Performance, colour: Colour)

  datatype Text =
    | Plain(s: string)
    | ErrorReport(detail: string)
    | TransactionReview(kind: TxKind, name: string, code: string, state: string,
                        amount: int, newBalance: int, removalWarning: bool)
    | TransactionBroadcast(kind: TxKind, user: User, name: string, code: string, state: string,
                           amount: int, newBalance: int, transactionId: int)
    | CurrencyTable(header: seq<HeaderCell>, rows: seq<CurrencyData>)
    | RecordTable(code: string, name: string, lines: seq<RecordLine>)
    | CurrencyDetails(state: string, reserves: int, circulation: int, code: string, value: real,
                      noRecordsWarning: bool)
    | CurrencyCreated(user: User, name: string, state: string, code: string, circulation: int, reserves: int)
    | DeletePrompt(name: string, code: string)
    | DeleteDone(name: string, code: string)
    | DeleteBroadcast(user: User, name: string, code: string)
    | DeleteDeclined(name: string, code: string)
    | ModifyBroadcast(user: User, display: string, modification: string)

  datatype Embed = Embed(title: string, description: Text, image: Option<string>)

  datatype Response = Response(
    interactive: bool,
    interactiveData: Option<Components>,
    data: Option<Text>,
    feedback: Option<Text>,
    embed: Option<Embed>,
    ephemeral: bool,
    modal: bool)

  /** What every constructor guarantees: components exactly when interactive, a modal is an
      ephemeral interactive response carrying its custom id, an embed is never interactive,
      and feedback only comes with components. */
  predicate WellFormed(r: Response) {
    (r.interactive <==> r.interactiveData.Some?) &&
    (r.modal ==> r.interactive && r.ephemeral && r.data.Some?) &&
    (r.embed.Some? ==> !r.interactive && r.data.None?) &&
    (r.feedback.Some? ==> r.interactive)
  }

  /** `CommandResponseObject::interactive`: components with a prompt. */
  function Interactive(components: Components, prompt: Text, ephemeral: bool): (r: Response)
    ensures WellFormed(r) && r.interactive && !r.modal && r.embed.None?
    ensures r.interactiveData == Some(components) && GetText(r) == prompt && r.ephemeral == ephemeral
  {
    Response(true, Some(components), Some(prompt), None, None, ephemeral, false)
  }

  /** `CommandResponseObject::interactive_only`: components and no text. */
  function InteractiveOnly(components: Components, ephemeral: bool): (r: Response)
    ensures WellFormed(r) && r.interactive && !r.modal && r.data.None?
    ensures r.interactiveData == Some(components) && GetText(r) == Plain("") && r.ephemeral == ephemeral
  {
    Response(true, Some(components), None, None, None, ephemeral, false)
  }

  /** `CommandResponseObject::modal`: always interactive, modal and ephemeral, its text the
      modal's custom id. */
  function Modal(components: Components, customId: string): (r: Response)
    ensures WellFormed(r) && r.interactive && r.modal && r.ephemeral
    ensures GetText(r) == Plain(customId)
  {
    Response(true, Some(components), Some(Plain(customId)), None, None, true, true)
  }

  /** `CommandResponseObject::interactive_with_feedback`: a private feedback line for the
      user who clicked and a display text for the channel. */
  function InteractiveWithFeedback(components: Components, feedback: Text, display: Text, ephemeral: bool): (r: Response)
    ensures WellFormed(r) && r.interactive && !r.modal
    ensures GetFeedback(r) == feedback && GetText(r) == display && r.ephemeral == ephemeral
  {
    Response(true, Some(components), Some(display), Some(feedback), None, ephemeral, false)
  }

  /** `CommandResponseObject::text`: a public, non-interactive message. */
  function TextResponse(t: Text): (r: Response)
    ensures WellFormed(r) && !r.interactive && !r.ephemeral && !r.modal && r.embed.None?
    ensures GetText(r) == t
  {
    Response(false, None, Some(t), None, None, false, false)
  }

  /** `CommandResponseObject::embed`: a public embed and no text. */
  function EmbedResponse(e: Embed): (r: Response)
    ensures WellFormed(r) && !r.interactive && !r.ephemeral && !r.modal
    ensures r.embed == Some(e) && GetText(r) == Plain("")
  {
    Response(false, None, None, None, Some(e), false, false)
  }

  /** `CommandResponseObject::error`: a private error report. */
  function ErrorResponse(detail: string): (r: Response)
    ensures WellFormed(r) && !r.interactive && r.ephemeral && !r.modal
    ensures GetText(r) == ErrorReport(detail)
  {
    Response(false, None, Some(ErrorReport(detail)), None, None, true, false)
  }

  function IsInteractive(r: Response): bool { r.interactive }
  function IsEphemeral(r: Response): bool { r.ephemeral }
  function IsModal(r: Response): bool { r.modal }

  /** `get_text`: the stored text, or the empty string when none was set. */
  function GetText(r: Response): (t: Text)
    ensures r.data.Some? ==> t == r.data.value
    ensures r.data.None? ==> t == Plain("")
  {
    r.data.GetOr(Plain(""))
  }

  /** `get_feedback`: the stored feedback, or the empty string when none was set. */
  function GetFeedback(r: Response): (t: Text)
    ensures r.feedback.Some? ==> t == r.feedback.value
    ensures r.feedback.None? ==> t == Plain("")
  {
    r.feedback.GetOr(Plain(""))
  }

  /** `get_interactive_data`: the components; the source unwraps, so it needs some. */
  function GetInteractiveData(r: Response): (c: Components)
    requires r.interactiveData.Some?
    ensures Some(c) == r.interactiveData
  {
    r.interactiveData.value
  }
}
