/** The progress dialog shown while an event is created, from
    frontend/app/components/EventCreationModal.tsx: what each step shows, when the dialog
    may close, and how the transaction hash and explorer link are written. */
module EventCreationModal {
  import Types
  import opened JsString
  import Utils

  /** The five steps of the creation flow. */
  datatype CreationStep = UploadingImage | UploadingMetadata | CreatingEvent | Succeeded | Failed

  /** The step's title and description (the icon is not modelled). */
  datatype StepInfo = StepInfo(title: string, description: string)

  /** `getStepInfo` */
  function GetStepInfo(step: CreationStep): (info: StepInfo)
    ensures step == Succeeded ==> info.title == "Event Created Successfully!"
    ensures step == Failed ==> info.title == "Creation Failed"
    ensures info.title != "" && info.description != ""
  {
    match step
    case UploadingImage => StepInfo("Uploading Image", "Uploading your event image to IPFS...")
    case UploadingMetadata => StepInfo("Creating Metadata", "Uploading event metadata to IPFS...")
    case CreatingEvent => StepInfo("Creating Event", "Deploying your event to the blockchain...")
    case Succeeded => StepInfo("Event Created Successfully!", "Your event has been successfully created on the blockchain.")
    case Failed => StepInfo("Creation Failed", "There was an error creating your event.")
  }

  /** Each step has a title of its own, so the title tells the steps apart. */
  lemma StepTitlesDistinct(a: CreationStep, b: CreationStep)
    ensures GetStepInfo(a).title == GetStepInfo(b).title <==> a == b
    ensures GetStepInfo(a).description == GetStepInfo(b).description <==> a == b
  {
  }

  /** `canClose`: only the two final steps may be closed. The dialog's close handler is
      `onClose` when this holds and a no-op otherwise, so a close request (Escape, a click
      outside) reaches `onClose` exactly on these steps. */
  predicate CanClose(step: CreationStep) {
    step == Succeeded || step == Failed
  }

  /** The icon spins while the step is neither success nor error. */
  predicate IconSpins(step: CreationStep) {
    step != Succeeded && step != Failed
  }

  /** The icon spins exactly while the dialog cannot be closed, which is also exactly when
      the "Please wait" note shows; the Close button shows only on error and the View
      Events link only on success. */
  lemma SpinningMeansWaiting(step: CreationStep)
    ensures IconSpins(step) <==> !CanClose(step)
    ensures CloseButtonShown(step) ==> CanClose(step) && !ViewEventsShown(step)
  {
  }

  /** The Close button of the error step. */
  predicate CloseButtonShown(step: CreationStep) {
    step == Failed
  }

  /** The View Events link of the success step. */
  predicate ViewEventsShown(step: CreationStep) {
    step == Succeeded
  }

  /** `{error || stepInfo.description}`: the error when one is given and not empty,
      the step's description otherwise. */
  function DescriptionShown(step: CreationStep, error: Types.Option<string>): (text: string)
    ensures error.Some? && error.value != "" ==> text == error.value
    ensures error.None? || error.value == "" ==> text == GetStepInfo(step).description
    ensures text != ""
  {
    if error.Some? && error.value != "" then error.value else GetStepInfo(step).description
  }

  /** A progress prop as used: a missing one is 0. */
  function ProgressOrZero(progress: Types.Option<real>): (p: real)
    ensures progress.None? ==> p == 0.0
    ensures progress.Some? ==> p == progress.value
  {
    match progress
    case None => 0.0
    case Some(v) => v
  }

  /** The progress bars on screen: the image bar only while the image uploads, the
      metadata bar only while the metadata uploads. Each is the rounded percentage it
      shows, None when the bar is absent. */
  function ImageBar(step: CreationStep, imageUploadProgress: Types.Option<real>): (bar: Types.Option<int>)
    ensures bar.Some? <==> step == UploadingImage
    ensures bar.Some? ==> bar.value == Types.Round(ProgressOrZero(imageUploadProgress))
  {
    if step == UploadingImage then Types.Some(Types.Round(ProgressOrZero(imageUploadProgress))) else Types.None
  }

  function MetadataBar(step: CreationStep, metadataUploadProgress: Types.Option<real>): (bar: Types.Option<int>)
    ensures bar.Some? <==> step == UploadingMetadata
    ensures bar.Some? ==> bar.value == Types.Round(ProgressOrZero(metadataUploadProgress))
  {
    if step == UploadingMetadata then Types.Some(Types.Round(ProgressOrZero(metadataUploadProgress))) else Types.None
  }

  /** At most one progress bar is on screen, and a missing progress shows as 0%. */
  lemma AtMostOneBar(step: CreationStep, image: Types.Option<real>, metadata: Types.Option<real>)
    ensures !(ImageBar(step, image).Some? && MetadataBar(step, metadata).Some?)
    ensures step == UploadingImage && image.None? ==> ImageBar(step, image) == Types.Some(0)
    ensures step == UploadingMetadata && metadata.None? ==> MetadataBar(step, metadata) == Types.Some(0)
  {
  }

  /** The hash (and the contract address) as displayed: first 10 characters, "...",
      last 8 characters. */
  function ShortHash(hash: string): (r: string)
    ensures |hash| >= 18 ==>
      && |r| == 21
      && r[..10] == hash[..10]
      && r[10..13] == "..."
      && r[13..] == hash[|hash| - 8..]
    ensures |hash| < 18 ==> |r| > |hash|
  {
    Utils.Shorten(hash, 10, 8)
  }

  const ExplorerTxPrefix := "https://somnia-testnet.socialscan.io/tx/"

  /** `getExplorerUrl`: the explorer's transaction page for a hash. */
  function ExplorerUrl(txHash: string): (url: string)
    ensures StartsWith(url, ExplorerTxPrefix)
    ensures url[|ExplorerTxPrefix|..] == txHash
  {
    ExplorerTxPrefix + txHash
  }

  /** Different hashes link to different pages: the hash can be read back from the URL. */
  lemma ExplorerUrlInjective(a: string, b: string)
    ensures ExplorerUrl(a) == ExplorerUrl(b) <==> a == b
  {
    if ExplorerUrl(a) == ExplorerUrl(b) {
      assert a == ExplorerUrl(a)[|ExplorerTxPrefix|..];
    }
  }

  /** The Transaction Details block: the shortened hash and its explorer link. */
  datatype TransactionBlock = TransactionBlock(shownHash: string, link: string)

  /** `{transactionHash && ...}`: the block shows when a non-empty hash is given. */
  function TransactionDetails(transactionHash: Types.Option<string>): (block: Types.Option<TransactionBlock>)
    ensures block.Some? <==> transactionHash.Some? && transactionHash.value != ""
    ensures block.Some? ==>
      block.value.shownHash == ShortHash(transactionHash.value)
      && block.value.link == ExplorerUrl(transactionHash.value)
  {
    if transactionHash.Some? && transactionHash.value != "" then
      Types.Some(TransactionBlock(ShortHash(transactionHash.value), ExplorerUrl(transactionHash.value)))
    else Types.None
  }

  /** The Event Details block: the event's name and, when known, its shortened contract
      address. */
  datatype DetailsBlock = DetailsBlock(name: string, contract: Types.Option<string>)

  /** `{step === 'success' && eventName && ...}`, with the contract line under
      `{eventAddress && ...}`. */
  function EventDetails(step: CreationStep, eventName: Types.Option<string>, eventAddress: Types.Option<string>): (block: Types.Option<DetailsBlock>)
    ensures block.Some? <==> step == Succeeded && eventName.Some? && eventName.value != ""
    ensures block.Some? ==> block.value.name == eventName.value
    ensures block.Some? ==>
      (block.value.contract.Some? <==> eventAddress.Some? && eventAddress.value != "")
    ensures block.Some? && block.value.contract.Some? ==>
      block.value.contract.value == ShortHash(eventAddress.value)
  {
    if step == Succeeded && eventName.Some? && eventName.value != "" then
      var contract := if eventAddress.Some? && eventAddress.value != "" then Types.Some(ShortHash(eventAddress.value)) else Types.None;
      Types.Some(DetailsBlock(eventName.value, contract))
    else Types.None
  }

  /** The event block appears only on the success step, next to View Events and when the
      dialog may close; the transaction link always leads to the page of the hash shown. */
  lemma DetailsBlocks(step: CreationStep, eventName: Types.Option<string>, eventAddress: Types.Option<string>, transactionHash: Types.Option<string>)
    ensures EventDetails(step, eventName, eventAddress).Some? ==>
      ViewEventsShown(step) && CanClose(step) && !IconSpins(step)
    ensures TransactionDetails(transactionHash).Some? ==>
      TransactionDetails(transactionHash).value.link[|ExplorerTxPrefix|..] == transactionHash.value
  {
  }
}
