/** The world around the coordinator, as the answers it gives. What is proved about a run holds for all
    answers, so for every behaviour of repositories, adapters and providers. */
module Environment {
  import opened Js
  import opened RunModel

  /** Answers of calls that may throw. */
  datatype Answer<+T> = Thrown | Returned(value: T)

  type Hash = h: string | h != "" witness "0x0"

  /** A transaction the adapter reports mined: a non-empty hash, and maybe a receipt object. */
  datatype Mined = Mined(txHash: Hash, hasReceipt: bool)

  /** A refreshed bridge quote with the execution built from it. */
  datatype Refreshed = Refreshed(
    executable: bool, target: Option<string>, calldata: Option<string>, approvalTarget: Option<string>,
    destinationAmountRaw: string, minDestinationAmountRaw: string)

  datatype Tracking = Settled(destTxHash: Option<string>) | TimedOut | Refunded | TrackingFailed

  /** What one run is answered about one step, which it visits at most once. */
  datatype StepAnswers = StepAnswers(
    lease: Answer<bool>,               // repo.acquireLease
    record: Answer<Option<Stored>>,    // repo.getPlanStep
    uncertain: Answer<bool>,           // repo.getTransactionsForStep: is one uncertain or awaiting recovery?
    released: bool,                    // repo.releaseLease returns
    starts: bool,                      // the state machine takes the status the step starts with
    ends: bool,                        // and the one it ends with
    allowance: Answer<int>,            // evmAdapter.checkAllowance
    sent: Answer<Mined>,               // evmAdapter.executeTransaction, or another sender that reports a hash
    approved: Answer<Option<string>>,  // a direct ERC-20 approve, and whatever hash it yields
    arrived: Option<int>,              // what extractActualSourceSwapOutput finds in the receipt
    quote: Answer<Option<Refreshed>>,  // defaultCrossChainAggregator.getQuote
    built: bool,                       // buildExecution returns
    tracked: Answer<Tracking>,         // tracker.trackUntilSettled
    verified: Answer<bool>,            // tracker.verifyDestinationSettlement
    reported: Option<string>,          // a hash a status callback stored before its send failed
    message: Option<string>)           // the text of whatever the step throws

  /** What a run is answered about each step, by id. */
  type World = string -> StepAnswers
}
