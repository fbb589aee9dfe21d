# Coinbend: model and proofs

Coinbend is a peer-to-peer exchange between pairs of cryptocurrencies. This
project models its two-party contract protocol and the arithmetic and algorithms
around it, and proves what they keep, compute and guarantee. `dafny verify
dfyconfig.toml` checks everything.

| files | what they model |
|---|---|
| `MatchState.dfy` | the guarded states of a match and the calibration of its terms |
| `Microtransfer.dfy` | one contract: refunds, and the payment channel that moves money a chunk at a time |
| `Protocol.dfy`, `ContractNode.dfy` | what one node does with messages, actions, replies and callbacks: as functions, and as the object that is updated in place |
| `SafeRefunds.dfy` | what a node signs, sends and holds over any life, stated of the transactions themselves |
| `Lockstep.dfy`, `FairRuns.dfy`, `Impasse.dfy`, `HandshakeExamples.dfy` | two nodes joined by first-in first-out connections: the joint invariant, termination of fair runs, when completion is impossible, and concrete runs that fail |
| `SetupTx.dfy` | a factory of contracts, its setup transaction, and the two independent fee checks |
| `Trade.dfy` | matching and unmatching of limit trades |
| `TxMonitor.dfy`, `TxMonitorFaults.dfy`, `TxMonitorLoop.dfy` | the block follower that counts confirmations: its account, where it fails, and its in-place tables |
| `Amounts.dfy`, `DecimalText.dfy`, `Currency.dfy` | amounts as integers at 10^-16, digit strings, and the currency type computed on them |
| `NumberTheory.dfy`, `KeyCompression.dfy` | Fermat's little theorem, modular power and public key compression |
| `DeltaTest.dfy`, `TrimmedMean.dfy` | recognizing a delta NAT with one bad sample; the average that ignores outliers |
| `LineFramer.dfy`, `ChunkedBody.dfy` | messages over TCP; the chunked request body (section 3.6.1 of RFC 2616) |
| `Outcome.dfy` | optional values, and results that may raise |

How to read it. Where the program updates objects there is a class whose methods
are proved against a specification function, and the theorems are lemmas about
that function over whole runs. A transaction is its inputs, outputs and lock time;
a signature is known by its key and what it signs; a transaction id is a number
that no two transactions share. A node's life is any sequence of messages from
anyone, passes of the event loop, and confirmations. In a system of two honest
nodes each event loop alternates between acting, reading and routing, and READY,
setup confirmation and redemption may come between any two passes; at any moment
the messages stamped up to some point may have turned fifteen minutes old. READY is
taken once a contract.

What the code does not do as one might expect, each with its exact condition:

* A buyer that reads the seller's first request before its own READY drops the
  reply for good. And the reply a buyer holds back until its setup confirms is
  stamped when it is made: if that takes fifteen minutes the seller discards it,
  unless it runs in debug mode. Either way both sides wait forever, and so they do
  whenever a needed message is read that late (`Lockstep.TimelyOrWedged`,
  `HandshakeExamples.StaleReply`).
* A contract whose first chunk is worth less than a satoshi never completes,
  because an amount found of zero is taken for no amount
  (`Impasse.CompletesIffWorth`).
* A block follower that falls further behind than one check allows starts over
  and counts blocks twice, so that it calls back early
  (`TxMonitorFaults.OnTimeIff`, `BehindCallsEarly`, `HowEarly`), or never catches up
  (`NeverCatchesUp`).
* A block that pays a watched address raises while the details are noted, before
  anything is counted: a check gets past it exactly as `TxMonitors.BlockPassesIff`
  and `TxMonitorFaults.KeepsUpIff` say, usually never
  (`TxMonitorFaults.StuckAtAddress`, `NeverPastAddress`), and otherwise by losing it
  (`PassedOverExample`); a watched address is never reported
  (`AddressNeverCallsBack`).
* Registering a transaction that is already deep calls back at once and then blocks
  every later check (`TxMonitorFaults.StuckForever`).
* The setup of a partly matched trade need not pass the fee check it is built for
  (`SetupTx.ValidIff`, `SetupTx.PartlyMatchedFails`).
* A setup in which a signed chunk size finds no output passes without a look at its
  fee (`SetupTx.WhatIsNotWeighed`).
* Iterating a socket after `recv_line` loses what was queued
  (`LineFramers.Sock.Iterate`), and a message longer than the buffer blocks it.
* Two nodes calibrate to the same trade only when their clocks order the two
  matches alike (`MatchStates.CalibrationsMirror`).
* Fractions of more than sixteen digits are misread (`Currency.ParseIsExact`); a
  power with exponent zero and modulus one is not reduced
  (`KeyCompression.PowModMeetsItsDocstring`).

## Model

| member | source | states |
|---|---|---|
| `MatchStates.RequestMovesForward` | coinbend/match_state.py:64-196 | any one update request leaves the state alone or raises the rank strictly |
| `MatchStates.GuardIsALine` | coinbend/match_state.py:64-177 | a state may be entered exactly from the one before it on its own side, or by stepping over one of three |
| `MatchStates.StatesMoveForward` | coinbend/match_state.py:64-196 | under any sequence of requests, two moments have the same state or the later one a higher rank: no state is ever left and entered again |
| `MatchStates.SidesStayApart` | coinbend/match_state.py:64-196 | no run ever holds a buyer state at one moment and a seller state at another |
| `MatchStates.StaysOnSide` | coinbend/match_state.py:64-196 | from any state, after any requests, a match is still on its side or closing |
| `MatchStates.MatchState.UpdateState` | coinbend/match_state.py:179-196 | the return value says whether the guard allowed the request; the state moves exactly then, and strictly forward |
| `MatchStates.MatchState.CalibrateTrades` | coinbend/match_state.py:198-231 | both trades keep their action and order and get the amount, pair and price of the match with the later timestamp, the reply when they are the same; nothing changes when a match is missing |
| `MatchStates.CalibrationsMirror` | coinbend/match_state.py:198-231 | two nodes with swapped roles and clocks of their own agree on both trades exactly when they take the same match as newer or the terms do not differ |
| `Microtransfer.MicrotransferContract.constructor` | coinbend/microtransfer_contract.py:548-629 | a new contract has moved nothing and holds no download |
| `Microtransfer.MicrotransferContract.Create` | coinbend/microtransfer_contract.py:548-629 | building a contract succeeds exactly when both ceilings leave something and both amounts reach the dust threshold |
| `Microtransfer.FeasibleIff` | coinbend/microtransfer_contract.py:548-629 | a contract can be made exactly when what either side would move is something and no less than dust |
| `Microtransfer.RefundsSpendTheContract` | coinbend/microtransfer_contract.py:655-716 | the outputs of every refund add up to the upload amount, to within one satoshi, exactly when the split is whole, and with a whole fee to the contract output |
| `Microtransfer.MicrotransferContract.AdjustRefundTx` | coinbend/microtransfer_contract.py:758-873 | the new sent, recv and download and the returned value, for every received payment or none: refused payments change nothing, taken ones add one chunk each way |
| `Microtransfer.MicrotransferContract.FindOutput` | coinbend/microtransfer_contract.py:808-815 | finds what the first output to our address pays, zero if there is none |
| `Microtransfer.TakenStep` | coinbend/microtransfer_contract.py:758-873 | one message either is taken and raises the count of payments by one, or changes nothing |
| `Microtransfer.FaultyIsRefused` | coinbend/microtransfer_contract.py:769-846 | a payment not signed as it is by both keys of the other side, time-locked, not final, out of another setup, or paying too little or nothing is refused and changes nothing |
| `Microtransfer.FlawlessIsTaken` | coinbend/microtransfer_contract.py:769-873 | a payment with none of these faults is taken: one chunk each way, and it is the new download |
| `Microtransfer.DownloadCame` | coinbend/microtransfer_contract.py:839-846 | the download held after any messages came in one of them, signed, final, and out of the setup known then to be theirs |
| `Microtransfer.BoundedExposure` | coinbend/microtransfer_contract.py:758-873 | after any sequence of messages from anyone, k taken: recv = min(k chunks, download), sent = min(k or, for the initiator, k+1 chunks, upload), and the stored download pays at least recv, is signed by both keys of the other side over exactly it, and is final |
| `Microtransfer.HonestPaymentTaken` | coinbend/microtransfer_contract.py:758-846 | after k payments the next honest one is taken exactly when it is worth at least a satoshi |
| `Microtransfer.HonestAnswer` | coinbend/microtransfer_contract.py:851-873 | a taken payment is answered with the next payment in turn unless both amounts are already moved |
| `Microtransfer.RoundsReach` | coinbend/microtransfer_contract.py:758-765 | n chunks reach the whole amount exactly when n is at least the amount divided by the chunk, rounded up |
| `Protocol.HandlingMovesForward` | coinbend/hybrid_protocol.py:622-1064 | no message, authentic or not, moves a match back |
| `Protocol.NodesMoveForward` | coinbend/main.py:196-459 | over a whole life of messages, actions, routing and confirmations the state only moves forward |
| `Protocol.RoutingKeepsChannel` | coinbend/main.py:337-459 | routing replies touches nothing but the queue and, for a held-back reply, the buyer state it waits for |
| `Protocol.SetupIsHeld` | coinbend/hybrid_protocol.py:984-1006 | whatever happens to a node it stays on its own side, and from the point where payments become possible it holds the setup named in READY |
| `Protocol.HappeningKeepsExposure` | coinbend/microtransfer_contract.py:758-873 | no message, action, routing pass or callback lets a node get further ahead of its counterparty |
| `Protocol.InitiatingPaysOneChunk` | coinbend/main.py:247-258 | an action changes the channel only for the seller that initiates, and then by one chunk |
| `Protocol.AtMostOneChunkAhead` | coinbend/hybrid_protocol.py:803-874 | in every life of a node against any counterparty, however events interleave, after k payments taken it has signed away k chunks, a seller that has initiated k + 1, up to the whole amount, and its download pays what k payments are worth |
| `SafeRefunds.RefundsAreSafe` | coinbend/microtransfer_contract.py:655-716 | over any life against any counterparty: the refund held, sent for signing or signed gives the whole deposit back to our change address after the time lock; each payment signed leaves us all but what was signed away and pays nobody else; what we sign for the other side is time-locked; the download held is signed, final and out of the announced setup |
| `SafeRefunds.SentIsSigned` | coinbend/microtransfer_contract.py:849-873 | some payment, sent or waiting, pays away exactly what counts as sent |
| `SafeRefunds.UnsentComesBack` | coinbend/microtransfer_contract.py:655-716 | whichever of its transactions is published, a node gets back at least what it has not signed away, to the satoshi |
| `SafeRefunds.UnauthenticIsIgnored` | coinbend/hybrid_protocol.py:622-1064 | a message the counterparty did not sign does nothing, but that a setup request moves the state |
| `SafeRefunds.BadSignatureMovesOn` | coinbend/hybrid_protocol.py:1010-1064 | a refund signature that is none still moves the state |
| `SafeRefunds.FaultyPaymentIsAnswered` | coinbend/hybrid_protocol.py:838-877 | a payment that is refused is answered with a blank line and changes nothing |
| `SafeRefunds.OneReplyIsHeldBack` | coinbend/hybrid_protocol.py:655-680 | however often it is asked, a node holds back one reply at most |
| `SafeRefunds.ConfirmationsAreAwaited` | coinbend/contract_client.py:155-170 | in no life does a node go on before its own setup has confirmed, or is done before its redemption has |
| `SafeRefunds.SetupCame` | coinbend/hybrid_protocol.py:933-1008 | the setup held came in an authentic message and passed validation |
| `ContractNodes.ContractNode.constructor` | coinbend/match_state.py:24-62 | a node enters the protocol in pending_contract with nothing held |
| `ContractNodes.ContractNode.ParseGetRefundSig` | coinbend/hybrid_protocol.py:622-723 | what the handler does to the state, the table of refunds and the reply queue, including the reply held back until the setup confirms |
| `ContractNodes.ContractNode.ParseReturnRefundSig` | coinbend/hybrid_protocol.py:1010-1064 | the state moves before the signature is tried; only a valid signature over our refund is stored |
| `ContractNodes.ContractNode.ParseGetSetupTx` | coinbend/hybrid_protocol.py:879-931 | the state moves even for a message that is not authentic; only an authentic one is answered |
| `ContractNodes.ContractNode.ParseReturnSetupTx` | coinbend/hybrid_protocol.py:933-1008 | only an authentic, valid setup with the announced id moves the state and is stored |
| `ContractNodes.ContractNode.ParseReturnAdjustedRefund` | coinbend/hybrid_protocol.py:803-877 | outside the accepting state, or unauthentic, nothing changes; otherwise the channel adjusts, the answer is queued, and the state completes exactly when both amounts are moved |
| `ContractNodes.ContractNode.AskForRefundSig` | coinbend/main.py:217-231 | builds the full refund, sends it, and moves on |
| `ContractNodes.ContractNode.AskForSetupTx` | coinbend/main.py:233-245 | asks for the setup and moves on |
| `ContractNodes.ContractNode.Initiate` | coinbend/main.py:247-258 | sends the first payment and starts accepting exactly when there is something to pay |
| `ContractNodes.ContractNode.CheckState` | coinbend/main.py:196-268 | one pass of actions: each state acted on once, with the messages sent and the new state |
| `ContractNodes.ContractNode.RouteReplies` | coinbend/main.py:337-459 | ready replies are sent in order, the others kept in order |
| `ContractNodes.ContractNode.ParseReadyMsg` | coinbend/contract_client.py:144-153 | READY enters the setup of the counterparty |
| `ContractNodes.ContractNode.SetupConfirmed` | coinbend/contract_client.py:155-170 | the callback asks for the first handshake state of its side |
| `ContractNodes.ContractNode.DownloadConfirmed` | coinbend/main.py:270-287 | the callback asks for the final state |
| `Lockstep.PaymentTaken` | coinbend/hybrid_protocol.py:803-877 | in an honest pair the next payment in turn is counted, answered with our next one, and completes exactly the last time |
| `Lockstep.CompleteAtLast` | coinbend/microtransfer_contract.py:758-873 | both amounts are moved exactly when as many payments as both roundings-up ask for have been taken |
| `Lockstep.ActKeeps` | coinbend/main.py:196-268 | the actions of the event loop keep the local invariant of a side |
| `Lockstep.RouteKeeps` | coinbend/main.py:337-459 | so does routing, and the message sent is the next in the script |
| `Lockstep.ConfirmKeeps` | coinbend/contract_client.py:155-170 | so does the confirmation, whether it comes before or after the first request of the seller |
| `Lockstep.HearSignature` | coinbend/hybrid_protocol.py:1010-1064 | so does the refund signature |
| `Lockstep.HearRefundRequest` | coinbend/hybrid_protocol.py:622-723 | so does the refund request, confirmed or not |
| `Lockstep.HearSetupRequest` | coinbend/hybrid_protocol.py:879-931 | so does the setup request |
| `Lockstep.HearSetup` | coinbend/hybrid_protocol.py:933-1008 | so does the setup |
| `Lockstep.HearPayment` | coinbend/hybrid_protocol.py:803-877 | so does every payment |
| `Lockstep.HearTooLate` | coinbend/hybrid_protocol.py:832-838 | what arrives after the end is dropped and changes nothing |
| `Lockstep.NextMessageIsExpected` | coinbend/hybrid_protocol.py:622-1064 | whatever is next in the queue finds the side in the very state that takes it |
| `Lockstep.StepKeepsInv` | coinbend/main.py:196-466 | the joint invariant over both nodes and the messages in flight survives every event except a late READY and the loss, through age, of a message still needed |
| `Lockstep.RunKeepsInv` | coinbend/main.py:196-466 | and hence every run |
| `Lockstep.NothingIsDropped` | coinbend/hybrid_protocol.py:622-1064 | in every interleaving in which the buyer has READY in time and nothing still needed is fifteen minutes old when it is read, no message reaches an unfinished side in a state that drops it |
| `Lockstep.RefundBeforeSetup` | coinbend/hybrid_protocol.py:879-1064 | between honest sides nobody hands over a setup before holding its refund signed by the other, or pays before holding the setup of the other |
| `Lockstep.EarlyWedges` | coinbend/hybrid_protocol.py:655-684 | a buyer that reads the first request before READY leaves both sides waiting for each other |
| `Lockstep.HearOutOfTurn` | coinbend/match_state.py:64-177 | a message that follows a lost one finds its receiver in a state that refuses it |
| `Lockstep.LostStays` | coinbend/lib.py:175-187 | once a needed message is fifteen minutes old, read or held back, the side that needs it takes nothing more, whatever happens |
| `Lockstep.TimelyOrWedged` | coinbend/lib.py:175-187 | a run ends wedged exactly when the buyer read the first request before READY, or a message a side still needed, unread or held back, turned fifteen minutes old |
| `FairRuns.StepWorks` | coinbend/main.py:196-466 | every event increases the progress measure or changes nothing but the place in the event loop |
| `FairRuns.WhereASideRests` | coinbend/match_state.py:64-177 | the message counts at which a side has nothing left to do |
| `FairRuns.RestIsDone` | coinbend/main.py:196-466 | the only states of the invariant in which nothing can happen are the completed ones |
| `FairRuns.ProgressIsBounded` | coinbend/microtransfer_contract.py:758-873 | progress never exceeds a bound computed from the two numbers of rounds |
| `FairRuns.EveryFairRunCompletes` | coinbend/hybrid_protocol.py:803-877 | a fair run longer than the bound completes on both sides, sent = upload and recv = download, exactly when READY was not late and no needed message too old |
| `FairRuns.EventLoopsComplete` | coinbend/main.py:196-466 | from any point with READY received, running both event loops often enough without delay completes the contract exactly when all was timely so far |
| `FairRuns.AtMostOneChunkInFlight` | coinbend/microtransfer_contract.py:758-873 | at every moment of an honest run the credit of one side differs from what the other has sent by at most one chunk, in each direction |
| `FairRuns.LastsFit` | coinbend/microtransfer_contract.py:758-873 | the two sides finish on payments that fit each other, even when their round counts differ |
| `Impasse.WorthlessIsRefused` | coinbend/microtransfer_contract.py:808-823 | a first payment that truncates to no satoshi is refused by any channel state |
| `Impasse.WorthlessNeverCompletes` | coinbend/microtransfer_contract.py:808-823 | if the first payment of either side is worthless, in no run at all is the seller credited with anything |
| `HandshakeExamples.LateReadyExample` | coinbend/hybrid_protocol.py:655-684 | a concrete honest deal and a run of five events in which READY comes after the request, and which is wedged |
| `HandshakeExamples.StaleReply` | coinbend/hybrid_protocol.py:699-716 | READY in time, the reply held back until the setup confirms, and fifteen minutes gone: such a run is not timely, for every honest deal |
| `HandshakeExamples.StaleReplyExample` | coinbend/lib.py:175-187 | a concrete honest deal that event loops never complete from there |
| `HandshakeExamples.WorthlessExample` | coinbend/microtransfer_contract.py:808-823 | two concrete partners with chunks of ten units that have no completing run |
| `Impasse.CompletesIffWorth` | coinbend/microtransfer_contract.py:758-873 | two partners have a completing run exactly when both first payments are worth a satoshi |
| `SetupTx.PutAddsUp` | coinbend/microtransfer_contract.py:391-397 | recording a contract adds its amount to the total of the dictionary, or less when its hash was known |
| `SetupTx.PutIsFound` | coinbend/microtransfer_contract.py:391-397 | recording a contract changes what is found under its hash and nothing else |
| `SetupTx.MicrotransferFactory.constructor` | coinbend/microtransfer_contract.py:294-343 | a factory starts with the fee set aside and nothing promised |
| `SetupTx.MicrotransferFactory.Create` | coinbend/trade_type.py:299-339 | the fee is set aside, or the factory raises exactly when it exceeds the trade |
| `SetupTx.MicrotransferFactory.AddContract` | coinbend/microtransfer_contract.py:348-401 | a contract is added exactly when a slot, a place and a legal leftover exist; remaining, total and the table change by it and by nothing else |
| `SetupTx.AddableIff` | coinbend/microtransfer_contract.py:348-401 | a new contract can be added exactly when what is left covers it and the factory then still is as it should be |
| `SetupTx.MicrotransferFactory.SumContracts` | coinbend/microtransfer_contract.py:476-484 | the collateral and the amount to send over all contracts |
| `SetupTx.ContractOutputs` | coinbend/microtransfer_contract.py:510-518 | one output a contract, of its upload amount and a transaction fee, in order |
| `SetupTx.MicrotransferFactory.BuildSetup` | coinbend/microtransfer_contract.py:414-528 | with every output spelled out: the fee output takes the chunks and the rate on what is not matched, or on the whole deposit when all is; contracts and change the rest. the outputs built from a funded factory, or the error when wallet or green address fall short |
| `SetupTx.TakenWithinDeposit` | coinbend/microtransfer_contract.py:489-518 | with a rate of at most one, fee and contracts never take more than the deposit |
| `SetupTx.OutputsSumToTheDeposit` | coinbend/microtransfer_contract.py:348-525 | the outputs of a factory filled in any way add up to the green address amount to the last unit |
| `SetupTx.SetupSpendsTheDeposit` | coinbend/microtransfer_contract.py:503-525 | in satoshi they do so to within one an output, and exactly when all are whole |
| `SetupTx.RefundsSpendTheFundedOutput` | coinbend/microtransfer_contract.py:515-517 | each contract output is what the full refund, or any adjusted one, spends plus the transaction fee |
| `SetupTx.FeeEquation` | coinbend/microtransfer_contract.py:138-147 | for every amount of change the fee equation holds exactly when the charge is the rate on the deposit less twice the change |
| `SetupTx.FullyMatchedFee` | coinbend/microtransfer_contract.py:489-501 | a fully matched setup has no change and meets the fee equation |
| `SetupTx.WhatIsNotWeighed` | coinbend/microtransfer_contract.py:61-136 | too few outputs or another fee script are refused; a setup in which a signed chunk size finds no output is passed without a look at its fee |
| `SetupTx.FullyMatchedIsValid` | coinbend/microtransfer_contract.py:42-147 | the validator, finding scripts and signed chunk sizes by itself, passes every fully matched setup in whole satoshi |
| `SetupTx.NodeVerdict` | coinbend/microtransfer_contract.py:42-147 | what the validator makes of any built setup, matched to whatever extent, with the amounts as they are rounded |
| `SetupTx.ValidIff` | coinbend/microtransfer_contract.py:42-147 | in whole satoshi it passes a built setup exactly when the rate on what is not matched, or on all if everything is, comes to the rate on the deposit less twice the change |
| `SetupTx.PartlyMatchedFails` | coinbend/microtransfer_contract.py:138-147 | the outputs built for one hundred coins with 79 matched are refused by the validator |
| `SetupTx.ValidateSetupTx` | coinbend/microtransfer_contract.py:61-147 | the verdict of the validator as the fee equation over outputs, change and found collaterals |
| `SetupTx.CountMatches` | coinbend/microtransfer_contract.py:121-136 | how many contract outputs carry the script of a counterparty |
| `SetupTx.ServerFeeCheck` | coinbend/contract_server.py:385-422 | the loop of the server sums the recorded chunk sizes up to the first missing one and applies the same equation |
| `SetupTx.ServerStopsAtGap` | coinbend/contract_server.py:385-406 | the server adds up to the first output whose chunk sizes it does not have |
| `SetupTx.ServerAgrees` | coinbend/contract_server.py:385-422 | with every chunk size recorded the server gives every built setup the verdict of the validator of the nodes, and passes every fully matched one in whole satoshi |
| `Trades.MatchingStaysSane` | coinbend/trade_type.py:439-506 | a match within the price moves the same coins and value on both sides, overflows nothing, keeps paid at most the price of received despite truncation, and closes a filled side |
| `Trades.MatchIsPriced` | coinbend/trade_type.py:489-498 | the value that moves with the coins is their cost at the price of the seller, less what is below the last decimal |
| `Trades.SellersGetTheirPrice` | coinbend/trade_type.py:439-506 | over any sequence of matches in any book a sell receives at most its price for what it sold, and less than one unit of the last decimal short of it for every match it takes part in |
| `Trades.EqualAgrees` | coinbend/trade_type.py:406-436 | what can be matched is symmetric, open, of one pair, wanting something, and within the price of both |
| `Trades.EqualFills` | coinbend/trade_type.py:425-436 | two such trades that have not moved fill and close each other and are never matched again |
| `Trades.MatchingConserves` | coinbend/trade_type.py:439-506 | over any sequence of matches in any book, buyers received what sellers sent and sent what sellers received |
| `Trades.LimitsAreRespected` | coinbend/trade_type.py:439-506 | no trade ever moves more coins than its amount or pays more than its total |
| `Trades.StepFills` | coinbend/trade_type.py:449-464 | a match between two unfilled trades fills at least one for good |
| `Trades.MatchingIsBounded` | coinbend/trade_type.py:449-506 | so there are fewer matches than trades that wanted something |
| `Trades.UnmatchingKeepsHub` | coinbend/trade_type.py:514-551 | taking back a match with any counterparty never raises and clears that counterparty |
| `Trades.UnmatchingRestores` | coinbend/trade_type.py:439-551 | a fresh trade matched with any fresh counterparties and unmatched in any order is back where it started, and so are they |
| `Trades.StepwiseExact` | coinbend/trade_type.py:514-551 | on the way the coins of the trade are those still matched exactly when these have some value, or there are none |
| `Trades.Trade.constructor` | coinbend/trade_type.py:136-171 | a new trade has moved nothing and wants its whole amount |
| `Trades.Trade.Equals` | coinbend/trade_type.py:406-436 | whether two trades can be matched |
| `Trades.Trade.Fill` | coinbend/trade_type.py:439-506 | the new fields of both trades after a match |
| `Trades.Trade.Divide` | coinbend/trade_type.py:439-511 | matching keeps both trades sane, moves exactly the amount returned times the price returned on both sides, and returns the amount moved and the price of the seller |
| `Trades.Trade.Multiply` | coinbend/trade_type.py:514-559 | the new fields after a match is taken back, and what was already assigned when a subtraction raised |
| `TxMonitors.BlockPassesIff` | coinbend/tx_monitor.py:276-404 | a block is passed exactly when it pays no address still looked for and calls back for no watch that was never saved; otherwise what is recorded of blocks stays as it was |
| `TxMonitors.FoundIff` | coinbend/tx_monitor.py:283-336 | a watched transaction is found exactly when one of the same serialization or the same but for signatures is in the block; the event is confirm exactly when the first such is the former |
| `TxMonitors.FaultsIff` | coinbend/tx_monitor.py:322-329 | looking for a watch fails exactly when its address is paid |
| `TxMonitors.SweepStopsAt` | coinbend/tx_monitor.py:274-359 | a sweep advances the watches in turn up to the first whose turn raises and leaves those after it as they were |
| `TxMonitors.RegisteredIsNew` | coinbend/tx_monitor.py:598-669 | registration in time adds a new watch, or replaces that of the same id, and changes nothing else |
| `TxMonitors.UnrecordUndoes` | coinbend/tx_monitor.py:490-499 | listing a watch under its block and taking it out are exact inverses |
| `TxMonitors.CheckReplays` | coinbend/tx_monitor.py:244-404 | a check of a chain grown by no more than the limit, paying no address still looked for, processes exactly the new blocks, in order |
| `TxMonitors.SweepOfOne` | coinbend/tx_monitor.py:276-359 | what a block that does not raise does to one watch does not depend on the others |
| `TxMonitors.BlockOfOne` | coinbend/tx_monitor.py:264-393 | after such a block a watch is counted, called back once ripe, and removed |
| `TxMonitors.CallbackOnce` | coinbend/tx_monitor.py:244-404 | while no address still looked for is paid, the callback of a watch registered in time is made exactly once, while block h + confirmations - 1 is processed, however checks, blocks and registrations interleave: as confirmed when the first transaction of block h that is the one watched has its serialization, as mutated when it is the same but for signatures |
| `TxMonitors.ScheduleDoesNotMatter` | coinbend/tx_monitor.py:149-404 | two nodes that poll the same chain on different schedules, undisturbed by addresses, are in the same state when they have seen as much |
| `TxMonitorFaults.KeepsUpIff` | coinbend/tx_monitor.py:240-404 | a check reaches the tip, and its latest block moves, exactly when the chain grew by at most the limit and no new block pays an address still looked for |
| `TxMonitorFaults.LoopGoesThrough` | coinbend/tx_monitor.py:244-404 | a check, behind or not, processes the blocks listed by Heights one after the other |
| `TxMonitorFaults.OnTimeIff` | coinbend/tx_monitor.py:244-404 | when the chain outgrew the limit, the callback is on time after the check exactly when the check got as far as block h + confirmations - 1 |
| `TxMonitorFaults.BehindCallsEarly` | coinbend/tx_monitor.py:244-404 | for every limit: the next check starts over from the same latest block and makes the callback in as many blocks as confirmations were still wanted, whichever they are; a callback made is not made again |
| `TxMonitorFaults.HowEarly` | coinbend/tx_monitor.py:244-404 | that block is always before block h + confirmations - 1, and a limit of twice the confirmations is enough for it to come |
| `TxMonitorFaults.BehindExample` | coinbend/tx_monitor.py:116-244 | at the limits the program uses, 6 confirmations and 1000 blocks: for a transaction in block 1000 the sixth confirmation is called back in a block before block 10 |
| `TxMonitorFaults.StuckAtAddress` | coinbend/tx_monitor.py:322-329 | when the first new block pays an address looked for, no check of the growing chain ever gets past it |
| `TxMonitorFaults.NeverPastAddress` | coinbend/tx_monitor.py:322-329 | wherever such a block lies, if no other watch is found in it, it and those after it are never processed, on any schedule and at any limit |
| `TxMonitorFaults.AddressExample` | coinbend/tx_monitor.py:461-466 | a concrete monitor that stays at block 0 forever because block 1 pays an address it looks for |
| `TxMonitorFaults.PassedOverExample` | coinbend/tx_monitor.py:249-256 | an example, a chain of four blocks, in which another watch was found in the block first and it is not the first new one: the next check passes it over as known, the tip is reached and the address never reported |
| `TxMonitorFaults.AddressNeverCallsBack` | coinbend/tx_monitor.py:322-329 | whatever the chain holds, in any run of checks and registrations, a watch of an address is never called back |
| `TxMonitorFaults.NeverCatchesUp` | coinbend/tx_monitor.py:240-404 | a monitor with more new blocks than the limit and nothing watched in those it can get to never moves its latest block again, on any schedule, and calls back no watch still to be found |
| `TxMonitorFaults.DeepRegistrationJams` | coinbend/tx_monitor.py:598-650 | registering a transaction that is already deep calls back at once, raises, and leaves a watch that was never saved |
| `TxMonitorFaults.BlockOfJammed` | coinbend/tx_monitor.py:276-359 | every block brings such a watch nearer to raising inside a check |
| `TxMonitorFaults.StuckForever` | coinbend/tx_monitor.py:149-466 | from then on no check gets past the next block, and each calls back again unless that block pays an address looked for |
| `TxMonitorLoops.TXMonitor.constructor` | coinbend/tx_monitor.py:92-123 | a new monitor starts at a height with empty tables |
| `TxMonitorLoops.TXMonitor.RemoveSeen` | coinbend/tx_monitor.py:490-499 | takes a watch out of its block, and the block out of the table when it was the last |
| `TxMonitorLoops.TXMonitor.RemoveWatch` | coinbend/tx_monitor.py:501-507 | takes a watch out of both tables |
| `TxMonitorLoops.TXMonitor.FindNeedle` | coinbend/tx_monitor.py:283-346 | the first transaction that matches decides the event, or raises when it matches an address |
| `TxMonitorLoops.TXMonitor.AdvanceWatch` | coinbend/tx_monitor.py:277-346 | counts, or finds and records, one watch, or raises at its address with nothing recorded |
| `TxMonitorLoops.TXMonitor.CallBack` | coinbend/tx_monitor.py:348-356 | makes the callback, then raises for a watch that was never saved |
| `TxMonitorLoops.TXMonitor.SweepWatches` | coinbend/tx_monitor.py:274-359 | the loop over the watches is the sweep, stopping where one raises, and lists the ripe ones |
| `TxMonitorLoops.TXMonitor.RemoveOld` | coinbend/tx_monitor.py:383-390 | removing the ripe watches one by one keeps the tables consistent |
| `TxMonitorLoops.TXMonitor.ProcessBlock` | coinbend/tx_monitor.py:260-393 | processing a block refines the specification and keeps every found watch listed in the block table |
| `TxMonitorLoops.TXMonitor.CheckBlock` | coinbend/tx_monitor.py:247-402 | one turn of the block loop |
| `TxMonitorLoops.TXMonitor.Check` | coinbend/tx_monitor.py:149-404 | the whole check, with its limit on blocks |
| `TxMonitorLoops.TXMonitor.AddWatch` | coinbend/tx_monitor.py:557-669 | registration, with the early callback |
| `DeltaTests.RendezvousClient.Differences` | coinbend/rendezvous_client.py:415-423 | the set of candidate differences |
| `DeltaTests.RendezvousClient.CountMatches` | coinbend/rendezvous_client.py:433-450 | matches are found exactly when the port predicts another |
| `DeltaTests.RendezvousClient.Masked` | coinbend/rendezvous_client.py:432-454 | counts the ports that predict another |
| `DeltaTests.RendezvousClient.DeltaTest` | coinbend/rendezvous_client.py:404-473 | tried in any order: an accepted candidate is set, or none is accepted, nothing is set and it raises |
| `DeltaTests.OnlyTheStepIsAccepted` | coinbend/rendezvous_client.py:404-473 | for four or more ports in progression, one of them arbitrary, a candidate is accepted if and only if it is the true step |
| `DeltaTests.AcceptedIff` | coinbend/rendezvous_client.py:426-467 | a difference is accepted exactly when of any two ports one fits it, and of two ports both |
| `DeltaTests.TwoBadSamples` | coinbend/rendezvous_client.py:404-473 | with two bad samples the true step is accepted exactly when both are shifted alike |
| `DeltaTests.Detect` | coinbend/rendezvous_client.py:404-473 | so the test sets the true step, whatever the order |
| `DeltaTests.ThreeAreTooFew` | coinbend/rendezvous_client.py:404-473 | three ports on which two candidates are accepted |
| `TrimmedMeans.TrimmedMean` | coinbend/lib.py:455-533 | the result is the least average among the largest clusters, zero for no numbers |
| `TrimmedMeans.FindCluster` | coinbend/lib.py:461-484 | a number with all those within the share of it, in input order |
| `TrimmedMeans.BubbleSort` | coinbend/lib.py:486-497 | terminates, sorts, and keeps the rows |
| `TrimmedMeans.SwapRemovesOne` | coinbend/lib.py:486-497 | exchanging two neighbours removes exactly one inversion: the measure of both sorting loops |
| `TrimmedMeans.Highest` | coinbend/lib.py:486-503 | the rows as long as the longest |
| `TrimmedMeans.LeastAverage` | coinbend/lib.py:505-533 | the least of the averages |
| `TrimmedMeans.Average` | coinbend/lib.py:507-513 | sum over size |
| `TrimmedMeans.OrderDoesNotMatter` | coinbend/lib.py:455-533 | permuting the input does not change the result |
| `TrimmedMeans.SimilarIff` | coinbend/lib.py:470-484 | positive numbers are similar exactly when they differ and neither is more than the factor 1 + percent of the other |
| `TrimmedMeans.NearTheBestSupported` | coinbend/lib.py:455-533 | the result is within the factor of a number that most others are near, and above none of those by more than it |
| `LineFramers.SplittingChangesNothing` | coinbend/sock.py:101-141 | parsing two pieces one after the other, with the leftover in front, gives what parsing the whole gives |
| `LineFramers.PiecesMakeTheWhole` | coinbend/sock.py:101-141 | so it is for any number of pieces |
| `LineFramers.MessagesComeBack` | coinbend/sock.py:267-280 | a list of messages comes back from the stream exactly when none is empty or contains a line end |
| `LineFramers.UpdateKeepsFuture` | coinbend/sock.py:235-237 | an update loses and invents nothing, but for what was still queued |
| `LineFramers.FullIsStuck` | coinbend/sock.py:172-178 | with the buffer full of an unfinished line nothing is ever read again |
| `LineFramers.IterationDelivers` | coinbend/sock.py:323-337 | iteration delivers the messages exactly when they are sendable and fit the buffer with their line ends |
| `LineFramers.ReceivingDelivers` | coinbend/sock.py:284-297 | receiving message by message returns those sent under exactly the same condition |
| `LineFramers.Sock.constructor` | coinbend/sock.py:29-51 | a new socket has read nothing |
| `LineFramers.Sock.SendLine` | coinbend/sock.py:267-280 | puts the message and a line end on the wire |
| `LineFramers.Sock.ParseBuf` | coinbend/sock.py:101-141 | the scanning loop yields the complete non-empty lines and leaves the rest |
| `LineFramers.Sock.Update` | coinbend/sock.py:143-237 | takes no more than the buffer has room for and replaces the queue |
| `LineFramers.Sock.RecvLine` | coinbend/sock.py:284-297 | returns the next message and keeps all that follows, or keeps everything; while no line is too long and bytes keep arriving it returns nothing only when every message has been returned |
| `LineFramers.Sock.Iterate` | coinbend/sock.py:323-337 | hands over all that was to come; it is complete exactly when nothing was queued before |
| `ChunkedBodies.EncodingIsDecoded` | coinbend/bottle.py:1125-1150 | every division of every body into chunks with any extensions decodes to the body, leaving the rest unread, exactly when each header fits the buffer |
| `ChunkedBodies.DecodedIsEncoded` | coinbend/bottle.py:1125-1150 | a body that decodes is a sequence of chunks with their line ends and a last header of size zero, and the data are theirs |
| `ChunkedBodies.StandardHeader` | coinbend/bottle.py:1135-1139 | hexadecimal digits with nothing or an extension after them announce their value |
| `ChunkedBodies.SignedDigits` | coinbend/bottle.py:1136-1139 | a size may have a sign and a 0x in front |
| `ChunkedBodies.Reader.Read` | coinbend/bottle.py:1129-1142 | a read returns a prefix of the input, no longer than asked for, and at least a byte while there is one |
| `ChunkedBodies.ReadHeader` | coinbend/bottle.py:1129-1134 | the header up to its line end, or none when the input or the limit ends first |
| `ChunkedBodies.ReadData` | coinbend/bottle.py:1141-1148 | whatever each read returns, the parts are the data |
| `ChunkedBodies.ReadChunk` | coinbend/bottle.py:1141-1150 | data and the line end after them |
| `ChunkedBodies.IterChunked` | coinbend/bottle.py:1125-1150 | for every pattern of short reads the parts add up to the decoded body, raising exactly when it is malformed |
| `Currency.AddRefines` | coinbend/currency_type.py:446-455 | addition with the sliced carry is integer addition at 10^16, and raises exactly on overflow |
| `Currency.SubtractRefines` | coinbend/currency_type.py:457-474 | subtraction with borrow is exact and raises exactly when the first is smaller |
| `Currency.AddThenSubtract` | coinbend/currency_type.py:446-474 | (a+b)-b = a whenever a+b is in range |
| `Currency.NoSumIsCut` | coinbend/currency_type.py:510-518 | the branch that cuts an over-long fraction is never reached by a sum |
| `Currency.NoDifferenceIsCut` | coinbend/currency_type.py:510-518 | nor by a difference |
| `Currency.ComparisonsRefine` | coinbend/currency_type.py:375-426 | the six comparisons are those of the numbers, hence one total order |
| `Currency.PadDecWithZeros` | coinbend/currency_type.py:189-220 | pads on the chosen side up to the precision and keeps longer text |
| `Currency.NoToStr` | coinbend/currency_type.py:299-318 | the whole part, a point and sixteen digits |
| `Currency.TruncateInsignificant` | coinbend/currency_type.py:568-598 | drops exactly the zeros at the end of the fraction |
| `Currency.Operand` | coinbend/currency_type.py:428-444 | an operand as digits and a number of places whose value is the amount |
| `Currency.PlacePoint` | coinbend/currency_type.py:476-494 | the point is put back so that the parts make up the product |
| `Currency.SixteenDecimals` | coinbend/currency_type.py:496-499 | cuts or pads the fraction to sixteen digits |
| `Currency.Multiply` | coinbend/currency_type.py:428-518 | multiplication through digit strings is the product cut at 10^-16, and raises exactly when the whole part is out of range |
| `Currency.ToStr` | coinbend/currency_type.py:702-716 | the printed text of an amount |
| `Currency.ParseIsExact` | coinbend/currency_type.py:222-343 | for digits with or without a point and fraction, and any suffix, parsing is exact exactly for at most sixteen fraction digits, or a zero fraction |
| `Currency.ParsedIsNumberText` | coinbend/currency_type.py:268-272 | every text that parses is such digits, fraction and suffix |
| `Currency.SuffixIff` | coinbend/currency_type.py:268-268 | what may follow the number: nothing, or a code with spaces before it, then perhaps a line end |
| `Currency.TextIsShort` | coinbend/currency_type.py:702-716 | printed text has up to eight decimals and ends in no zero but for the two of a whole number |
| `Currency.PrintThenParse` | coinbend/currency_type.py:702-716 | parsing what was printed gives the amount cut to eight decimals |
| `Currency.PrintingIsIdempotent` | coinbend/currency_type.py:702-716 | printing what was parsed from print changes nothing |
| `KeyCompression.PowMod` | coinbend/lib.py:240-248 | the loop returns the power modulo z, for every exponent |
| `KeyCompression.PowModMeetsItsDocstring` | coinbend/lib.py:240-248 | its documented result is met exactly unless the exponent is zero and the modulus one |
| `KeyCompression.DecompressPublicKey` | coinbend/ecdsa_crypt.py:143-162 | the point read from a compressed key |
| `KeyCompression.CompressReadsParity` | coinbend/ecdsa_crypt.py:166-188 | reading y without its first digit still finds its parity |
| `KeyCompression.CompressionRoundTrip` | coinbend/ecdsa_crypt.py:143-188 | decompressing a compressed point gives it back, for every prime 3 modulo 4 that fits and every point, y = 0 included |
| `KeyCompression.DecompressionRoundTrip` | coinbend/ecdsa_crypt.py:143-188 | compressing a decompressed key gives it back exactly unless an odd root of zero was asked for |
| `KeyCompression.Secp256k1RoundTrip` | coinbend/ecdsa_crypt.py:143-188 | the round trip on the curve used (SEC 2 section 2.4.1) |
| `NumberTheory.RootOfSquare` | coinbend/ecdsa_crypt.py:143-162 | for a prime 3 modulo 4 the computed power is a square root, so y or its negative |

## Left out

- Cryptography, scripts and serialization: keys, signatures, ids and scripts are abstract values; a redeem script is a number that names its parties.
- Message parsing, messages stamped in the future and the filter for repeated messages: a message arrives parsed, with a flag for whether its signature holds.
- `ContractNodes.ContractNode.ParseReturnSetupTx`: the validation of a returned setup is a parameter of the message; it is modelled by itself in `SetupTx.ValidateSetupTx`.
- `ContractNodes.ContractNode.CheckState`: sending the built refund and broadcasting the download are the messages returned and the redemption event; a table lookup that fails inside the event loop is modelled as doing nothing.
- `Microtransfer.MicrotransferContract.AdjustRefundTx`: a payment that spends a setup with another id is refused; the original looks the other id up through a name that is not defined there, which raises. A transaction without inputs is refused where the original raises.
- Whether a stored refund signature belongs to the state reached: the state advances before the signature is tried, so no such theorem is claimed for an arbitrary counterparty.
- Several contracts in one factory share one refund field; the protocol here runs one contract.
- `SetupTx.MicrotransferFactory.AddContract`: selling factories only; the buying side divides by the price at a decimal precision that is not modelled. Fees and amounts of other parties enter as one flag.
- `SetupTx.MicrotransferFactory.BuildSetup`: the choice of the input at the green address is left out; its amount is a parameter. The change output goes to the first key of the owner, as the validator expects.
- `SetupTx.ValidateSetupTx`: the checks of inputs, sequence and lock time and the signing that surrounds them are left out.
- `Trades.Trade.Multiply`: the status after undoing is stated as the code sets it; it does not restore the status before the match.
- Trades against a reversed pair, fees on trades, and the difference of two trades as a trade.
- `TxMonitors.Processed`: double spends and the table of inputs, orphaned blocks, memory pool arrivals (where an address raises too, after the blocks) and several coins are left out; the chain does not grow during a check and callbacks add no watches. Blocks are known by their height.
- `TxMonitorLoops.TXMonitor.AddWatch`: a transaction that is already deep is registered under a new id; under the id of a saved watch the original finds that watch instead of raising, and may fail only when it removes the new one.
- `DeltaTests.RendezvousClient.DeltaTest`: one tolerated collision, the value the program uses.
- `TrimmedMeans.TrimmedMean`: exact real numbers instead of decimals of limited precision.
- `LineFramers.Sock.Update`: what the network hands over is a number of characters an update; errors, decoding, timeouts and the limit on small pieces are left out, and text is ASCII.
- `LineFramers.Sock.RecvLine`: when no more updates follow it returns nothing, as the original does for a closed connection; otherwise the original waits.
- `ChunkedBodies.Reader.ReadLineEnd`: a line end arrives in one read; the original takes one that arrives in two for an error. Underscores between digits, which later versions of Python accept, are not digits.
- `KeyCompression.Secp256k1RoundTrip`: that the field prime is prime is a hypothesis.
- `Currency.ParseIsExact`: numbers given as floats, decimals or integers, and the tables of currency names, are left out; a suffix of letters is accepted and ignored.
- Decimal contexts: the precision the program sets in several places is not modelled; outputs are amounts cut to a satoshi.
- Sockets, RPC, databases, time, NAT traversal itself, the web interface and configuration.
- The contract server beyond its fee check, and reading exchange rates.
