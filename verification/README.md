# Advanced Wallets: a verified model

This project models, in Dafny 4.11, the multi-party key protocols of an advanced wallet
manager (AWM) and of Master Express, and the places where the system promises that two routes
lead to the same result.

An AWM holds one side's keys and keeps nothing between requests. Master Express runs two AWMs,
the user's and the backup's, and talks to the BitGo SDK on the other side. What is proved:

* **ECDSA key generation (MPCv2).** All protocol state travels in an encrypted blob. Every blob
  reachable by any order of calls, replays and forks included, keeps the lineage invariant.
  Over any run of the four SDK callbacks the rounds stay in order and keys are stored under
  BitGo's keychain only. A complete run, with its fused rounds 2 and 3 and its held-back
  round-3 messages, ends with the transcript of an ideal synchronous three-party protocol,
  and conversely. It is proved exactly when that holds of a run in which callbacks are retried.
* **EdDSA key generation (MPCv1).** Shares leave sealed and arrive exactly as their makers made
  them, in both directions, and with an honest BitGo both parties end with matching keys under an
  exact condition.
* **Recovery.** What each of the two keys is asked to sign is told from the request, field by field.
  Two servers with one key each sign what one server with both keys signs; the exact condition is
  given, with inputs that show it is needed. The same for whole batches.
* **Async jobs.** What sendMany submits is told from the request, and a job is completed with what
  the synchronous handler answers, for sending as for recovery. The worker has one batch
  in flight at most and always frees its flag. It is proved exactly when jobs of a batch are
  independent, when a job is handled twice at once, and how often one is submitted. At most one
  write per job and version is applied.
* **Signing rounds, account consolidation and URL schemes** are smaller parts of the same kind.

## How it is built

What the handlers call but do not contain (the MPC, OpenPGP and coin libraries, the symmetric
cipher, the key provider, the bridge) is a record of functions. The laws it must obey are ghost
predicates, required only where they are used: `MpcV2Awm.Lawful`, `EddsaAwm.Lawful`,
`EcdsaSigning.SealLaw`. A function that may throw returns an `Option`. Randomness and lost
answers are inputs, so a statement about all inputs covers all of them. That the bridge checks
versions is an assumption; its 409 is what `src/shared/httpClient.ts` turns into a conflict error.
Sections of the code that assign variables step by step are methods or classes, each proved equal
to a function about which the theorems are stated; the rest are functions.

A JSON object is a map, and a field that is `undefined` is a field that is absent. Error
messages are not modelled; error classes are.

| file | about |
|---|---|
| `Prelude`, `Json`, `Hex` | options and results, JSON values, Node's hex strings |
| `MpcV2Awm`, `MpcV2Server` | the ECDSA endpoints: functions, and the server step by step |
| `MpcV2Lineage` | every reachable blob |
| `MpcV2Orchestrator`, `MpcV2Runs` | the four callbacks, and arbitrary runs of them |
| `MpcV2Party`, `MpcV2Simulation`, `MpcV2Retries` | an in-memory party, the ideal protocol, the simulation, also under retries |
| `EddsaAwm`, `EddsaKeyGen` | the EdDSA endpoints and callbacks |
| `RecoveryUtils`, `Recovery`, `RecoverySigned`, `RecoverySteps`, `RecoveryConsolidations` | recovery signing: single, split, what is signed in one call and in each of two, and in batches |
| `AsyncUtils`, `MultisigSign`, `SendMany`, `SendManySubmitted` | jobs on the bridge, their packing, sendMany, what it submits |
| `JobBatch`, `AsyncJobWorker`, `JobAcrossTicks`, `AsyncIsSync` | concurrent processing of a listing, the polling worker, one job over many ticks, what jobs are completed with |
| `EcdsaSigning`, `Consolidate`, `UrlScheme` | the smaller parts |

Where comments and code disagree the model follows the code. `ecdsaMPCv2Finalize` does not test
the round counter (`MpcV2Awm.FinalizeIgnoresRound`). Outside production the default
replay-protection chain is 560048, though `src/types/transaction.ts` speaks of 17000.

## Model

| member | source | states |
|---|---|---|
| `MpcV2Simulation.Simulation` | src/masterBitgoExpress/handlers/walletGenerationCallbacks.ts:98-319 | for every BitGo and every chance, the run of the four callbacks over two stateless AWMs ends with a transcript (the GPG keys BitGo is given, all inboxes of rounds 2, 3, 4 and finalize, all BitGo hears, keychain, both stored keys) if and only if the ideal three-party protocol ends with the same one, in which each party's key goes to BitGo under its own name, no call was disturbed, BitGo's messages are addressed, and the keychain is not empty |
| `MpcV2Retries.RetriedSimulation` | src/masterBitgoExpress/handlers/walletGenerationCallbacks.ts:98-319 | the same for runs with retries: whatever other callbacks fail or succeed, with any inputs, as long as none replaces the four attempts the caller goes on with, those four leave the ideal transcript for their own chance events, and all go through if and only if the ideal protocol ends and none of them was disturbed |
| `MpcV2Retries.RetryCoherence` | src/masterBitgoExpress/handlers/walletGenerationCallbacks.ts:220-223 | of any run whose four attempts go through, the transcript is the ideal one if and only if the round-3 variables the third reads are those the second left, and the round-4 variables the last reads those the third left |
| `MpcV2Retries.RepeatedRound2` | src/masterBitgoExpress/handlers/walletGenerationCallbacks.ts:250-269 | two round-2 successes, and the caller goes on with the first: each AWM then gets its state of the first and the counterparty's message of the second |
| `MpcV2Retries.VariablesStay` | src/masterBitgoExpress/handlers/walletGenerationCallbacks.ts:87-319 | over any stretch of a run the variables of a stage stay while its callback does not succeed, and those of round 1 once they are set |
| `MpcV2Lineage.LineageInvariant` | src/advancedWalletManager/handlers/ecdsaMPCV2WalletGenerationRound.ts:40-153 | for any order of initialize and round calls, mixed blobs included: an answered blob's round is 1 plus the rounds behind it, at most 5; pins are those of the line's first round; private key and data key are the root's; session data is there exactly past round 1; the call asked for exactly the next round and, where it gave GPG keys, for the pinned ones |
| `MpcV2Lineage.BoundedProgress` | src/advancedWalletManager/handlers/ecdsaMPCV2WalletGenerationRound.ts:139-157 | on each answered round call, 5 minus the round counter drops by exactly one and stays non-negative |
| `MpcV2Lineage.WrongRoundRejected` | src/advancedWalletManager/handlers/ecdsaMPCV2WalletGenerationRound.ts:75-77 | a round call that skips, repeats or goes past the fourth round of its line is rejected |
| `MpcV2Lineage.MixedKeysRejected` | src/advancedWalletManager/handlers/ecdsaMPCV2WalletGenerationRound.ts:40-47 | the data of one line is never answered under the data key of another |
| `MpcV2Lineage.RoundStep` | src/advancedWalletManager/handlers/ecdsaMPCV2WalletGenerationRound.ts:49-157 | one round keeps the wrapped key and the private key, counts up by one in the blob and in the answer, sets the session, and pins by first use |
| `MpcV2Awm.ServerChecksKeychain` | src/advancedWalletManager/handlers/ecdsaMPCV2WalletGenerationFinalize.ts:51-74 | whatever the request, a stored key has the request's keychain as its public part, and an answer names its source and a key that was stored |
| `MpcV2Awm.FinalizeIgnoresRound` | src/advancedWalletManager/handlers/ecdsaMPCV2WalletGenerationFinalize.ts:20-37 | finalize comes out the same for blobs that differ in the round counter only |
| `MpcV2Awm.PinnedState` | src/advancedWalletManager/handlers/ecdsaMPCV2WalletGenerationRound.ts:49-83 | a state that passes the checks has both pins, the requested round, and session data past round 1 |
| `MpcV2Awm.Malformed` | src/advancedWalletManager/handlers/ecdsaMPCV2WalletGenerationRound.ts:23-38 | a round call is refused as malformed if and only if its round is not one of the four, it has no message past round 1, or a pair of messages lacks one |
| `MpcV2Server.AwmServer.HandleRound` | src/advancedWalletManager/handlers/ecdsaMPCV2WalletGenerationRound.ts:12-171 | the server's round, pinning and advancing field by field, answers as the round function |
| `MpcV2Server.AwmServer.HandleFinalize` | src/advancedWalletManager/handlers/ecdsaMPCV2WalletGenerationFinalize.ts:10-74 | the server's finalize answers as the finalize function and leaves exactly its key in the store |
| `MpcV2Runs.CallbackOrdering` | src/masterBitgoExpress/handlers/walletGenerationCallbacks.ts:87-319 | in every run of callbacks, failures and retries included: each AWM call follows the answers of both AWMs in the round before and carries the other AWM's own message, in round 1 the GPG key of the initialize call paired with its own; variables hold answered messages and fill stage by stage; stored keys stand under the given keychain |
| `MpcV2Runs.ServersKeepOrder` | src/masterBitgoExpress/handlers/walletGenerationCallbacks.ts:83-86 | the same for runs on two AWMs of this code, with nothing required |
| `MpcV2Runs.InOrderAt` | src/masterBitgoExpress/handlers/walletGenerationCallbacks.ts:148-165 | the order holds at every position of the call log |
| `MpcV2Runs.InitializeOnce` | src/masterBitgoExpress/handlers/walletGenerationCallbacks.ts:99-127 | in every run initialize succeeds at most once, and has succeeded exactly when its variables are set |
| `MpcV2Runs.KeyAgreement` | src/masterBitgoExpress/handlers/walletGenerationCallbacks.ts:285-318 | when a finalize callback of any run returns K, K is the keychain BitGo gave it and both AWMs have stored a key under K |
| `MpcV2Runs.ServersAgree` | src/masterBitgoExpress/handlers/walletGenerationCallbacks.ts:285-318 | the same on two AWMs of this code |
| `MpcV2Orchestrator.KeyGenCallbacks.InitializeCallback` | src/masterBitgoExpress/handlers/walletGenerationCallbacks.ts:99-139 | changes the variables, issues the calls and answers as the step function the runs are made of |
| `MpcV2Orchestrator.KeyGenCallbacks.Round2Callback` | src/masterBitgoExpress/handlers/walletGenerationCallbacks.ts:141-233 | likewise, for AWM rounds 2 and 3 |
| `MpcV2Orchestrator.KeyGenCallbacks.Round3Callback` | src/masterBitgoExpress/handlers/walletGenerationCallbacks.ts:235-283 | likewise, for AWM round 4 |
| `MpcV2Orchestrator.KeyGenCallbacks.FinalizeCallback` | src/masterBitgoExpress/handlers/walletGenerationCallbacks.ts:285-318 | likewise, for the two finalize calls; no variable changes |
| `MpcV2Party.StartRefines` | src/advancedWalletManager/handlers/ecdsaMPCV2WalletGenerationInitialize.ts:11-48 | initialize and round 1 behave as an in-memory party that starts |
| `MpcV2Party.RoundRefines` | src/advancedWalletManager/handlers/ecdsaMPCV2WalletGenerationRound.ts:99-171 | a round on a blob that holds a party fails or answers exactly as that party does in memory, and the new blob holds the new party |
| `MpcV2Party.FinalizeRefines` | src/advancedWalletManager/handlers/ecdsaMPCV2WalletGenerationFinalize.ts:32-68 | a key is stored exactly when the in-memory party ends on BitGo's keychain, and it is that party's share |
| `Hex.EncodeDecode` | src/advancedWalletManager/handlers/eddsaMPCWalletGenerationInitialize.ts:43-46 | encoding a decoded hex string gives it back if and only if it is canonical, the round trip of section 8 of RFC 4648 |
| `Hex.PackSlices` | src/advancedWalletManager/handlers/eddsaMPCWalletGenerationFinalize.ts:79-82 | packing two hex strings and slicing at 64 gives both back if and only if both are canonical and the first fills its 64 digits or is shorter with nothing after it |
| `Hex.DecodeEncode` | src/advancedWalletManager/handlers/eddsaMPCWalletGenerationInitialize.ts:43-46 | bytes written as hex are read back as they were |
| `EddsaAwm.EddsaServer.HandleFinalize` | src/advancedWalletManager/handlers/eddsaMPCWalletGenerationFinalize.ts:14-155 | the server's finalize answers as the finalize function and leaves exactly its key in the store, also when sealing fails after the key was stored |
| `EddsaAwm.SharesLeaveSealed` | src/advancedWalletManager/handlers/eddsaMPCWalletGenerationInitialize.ts:54-113 | every share in an initialize answer is the one made for its addressee, under that addressee's GPG key; the counterparty's is in the answer exactly when its key was given and in the encrypted payload, in the clear, exactly when it was not |
| `EddsaAwm.InitializeAnswers` | src/advancedWalletManager/handlers/eddsaMPCWalletGenerationInitialize.ts:20-24 | initialize refuses exactly a backup that is given no GPG key, and answers if and only if every share it must send was made and sealed |
| `EddsaAwm.StoredExactly` | src/advancedWalletManager/handlers/eddsaMPCWalletGenerationFinalize.ts:41-129 | for any request, honest or not: a key is about to be stored if and only if both shares open, the signature check accepts both parties' keys under their own names, and the three shares combine to BitGo's keychain; the key is that keychain with those shares |
| `EddsaAwm.FinalizeAnswers` | src/advancedWalletManager/handlers/eddsaMPCWalletGenerationFinalize.ts:123-146 | when finalize leaves a key, and exactly what it answers: the deferred share leaves under the counterparty's key |
| `EddsaKeyGen.Transport` | src/advancedWalletManager/handlers/eddsaMPCWalletGenerationFinalize.ts:85-97 | the share rebuilt from a message is, in every field, the share its sender made for this party |
| `EddsaKeyGen.SealedCarries` | src/advancedWalletManager/handlers/eddsaMPCWalletGenerationInitialize.ts:69-93 | a share once sealed, now or later, carries to its addressee what was made for it |
| `EddsaKeyGen.ShareLabelled` | src/advancedWalletManager/handlers/eddsaMPCWalletGenerationInitialize.ts:54-93 | a share names its maker, its addressee and the maker's GPG key, and its proof is over the very field it carries |
| `EddsaKeyGen.InitializeSucceeds` | src/masterBitgoExpress/handlers/walletGenerationCallbacks.ts:334-368 | the initialize callback succeeds; the backup's share reaches the user at once, the user's waits in its payload, and BitGo gets one it can open from each |
| `EddsaKeyGen.KeyOf` | src/advancedWalletManager/handlers/eddsaMPCWalletGenerationFinalize.ts:75-129 | a party that is sent honest shares is about to store the joint key with those very shares, if and only if the signature check passes and the keychain is the joint one |
| `EddsaKeyGen.UserFinalizes` | src/advancedWalletManager/handlers/eddsaMPCWalletGenerationFinalize.ts:132-146 | the user's finalize passes on its deferred share so that the backup can open it |
| `EddsaKeyGen.Agreement` | src/masterBitgoExpress/handlers/walletGenerationCallbacks.ts:329-417 | with an honest BitGo, the run succeeds if and only if the signature check accepts both, the keychain is the joint one and not empty, and both keys are taken; both then store under it, each with the other's and BitGo's share under the right name and index |
| `EddsaKeyGen.SuccessMeansAgreement` | src/masterBitgoExpress/handlers/walletGenerationCallbacks.ts:370-415 | with no assumption at all, a run that succeeds leaves both keys under the one keychain BitGo named |
| `EddsaKeyGen.CallbackAnswers` | src/masterBitgoExpress/handlers/walletGenerationCallbacks.ts:370-415 | when the finalize callback returns, with what, and when it fails on its own checks; a key once stored stays stored either way |
| `RecoveryUtils.ExtrasAt` | src/shared/recoveryUtils.ts:17-62 | what the decorated transaction holds under every key |
| `RecoveryUtils.AddEthLikeRecoveryExtras` | src/shared/recoveryUtils.ts:4-63 | the field-by-field decoration yields that transaction |
| `RecoverySigned.UtxoSigned` | src/advancedWalletManager/handlers/multisigRecovery.ts:321-439 | a UTXO recovery returns a transaction if and only if the user's key signed the unsigned one, not as the last signature, and the backup's key signed what that left as the last one, with the three public keys in order and the `txInfo` as given, and the result has a `txHex` |
| `RecoverySigned.EthLikeSigned` | src/advancedWalletManager/handlers/multisigRecovery.ts:135-319 | the same for EVM: what each of the two signatures is asked for, field by field: keys, nonces, recipients, fees, replay protection, and the nested half on the decorated transaction |
| `RecoverySigned.ExternallySigned` | src/advancedWalletManager/handlers/multisigRecovery.ts:441-503 | the same for external signing: the provider signs for the user and then, over that signature, for the backup |
| `RecoverySteps.UtxoUserStep` | src/advancedWalletManager/handlers/multisigRecovery.ts:321-418 | what the user's server answers a call for its key with: exactly that one signature, for exactly these requests |
| `RecoverySteps.UtxoBackupStep` | src/advancedWalletManager/handlers/multisigRecovery.ts:355-439 | what the backup's server answers for any half whatever: a signature over the half's transaction, if the half has one at the top and `txInfo` is truthy |
| `RecoverySteps.EthUserStep` | src/advancedWalletManager/handlers/multisigRecovery.ts:181-268 | the EVM half: the user's signature with the decoration, and nothing else |
| `RecoverySteps.EthBackupStep` | src/advancedWalletManager/handlers/multisigRecovery.ts:164-179 | the EVM completion of any half whatever: the nested transaction under the half's own recipients, nonce and replay protection |
| `RecoverySteps.ExternalBackupStep` | src/advancedWalletManager/handlers/multisigRecovery.ts:441-503 | the external completion: a signature over the half's top-level `txHex`, exactly when there is one |
| `RecoverySigned.RefusedByCoin` | src/advancedWalletManager/handlers/multisigRecovery.ts:83-205 | which step is refused with which class of error, by coin: missing keys, no recipients, an unformatted transaction, a half of the wrong shape |
| `RecoverySigned.RefusedExternally` | src/advancedWalletManager/handlers/multisigRecovery.ts:58-81 | an external backup signature is refused for a half without a top-level `txHex` |
| `Recovery.SplitEqualsSingle` | src/advancedWalletManager/handlers/multisigRecovery.ts:163-205 | for EVM, UTXO and external signing: two servers, the backup's in any environment, return a transaction if and only if one server with both keys returns it and the half-signed one has the shape the backup branch checks |
| `Recovery.EthLikeSplits` | src/advancedWalletManager/handlers/multisigRecovery.ts:135-210 | the EVM branch: the completion equals the single signature if the half has the EVM shape, and fails otherwise |
| `Recovery.UtxoSplits` | src/advancedWalletManager/handlers/multisigRecovery.ts:321-395 | the UTXO branch: likewise for a flat half and a truthy `txInfo` |
| `Recovery.ExternalSplits` | src/advancedWalletManager/handlers/multisigRecovery.ts:441-503 | external signing: the completion always equals the single signature |
| `Recovery.ReplayProtectionStable` | src/advancedWalletManager/handlers/multisigRecovery.ts:212-319 | the backup signature's arguments do not depend on the backup server's environment; its replay protection is the one the user half was signed under |
| `Recovery.SameTerms` | src/advancedWalletManager/handlers/multisigRecovery.ts:212-319 | both EVM halves are signed under the same public keys, derivation, contract and fees, whichever server signs the second |
| `Recovery.UsesOnlyItsKey` | src/advancedWalletManager/handlers/multisigRecovery.ts:83-102 | a call for one key comes out the same whatever the server holds of the other |
| `Recovery.UtxoWithoutTxInfo` | src/advancedWalletManager/handlers/multisigRecovery.ts:358-362 | an input on which one server signs and two refuse: `txInfo` is null |
| `Recovery.EvmFlatHalf` | src/advancedWalletManager/handlers/multisigRecovery.ts:164-169 | an input on which one server signs and two refuse: a flat EVM half |
| `RecoveryConsolidations.BatchSplitEqualsSingle` | src/masterBitgoExpress/handlers/handleRecoveryConsolidations.ts:116-155 | a batch over two AWMs returns a list if and only if the batch over one returns the same list and every half is handed over |
| `RecoveryConsolidations.SignAllInOrder` | src/masterBitgoExpress/handlers/handleRecoveryConsolidations.ts:116-155 | a batch returns a list if and only if the list has one element per transaction, in order, each what signing that transaction gives |
| `RecoveryConsolidations.SignAllFirstFailure` | src/masterBitgoExpress/handlers/handleRecoveryConsolidations.ts:156-159 | a failing batch fails with the error of its first failing transaction |
| `RecoveryConsolidations.HandleRecoveryConsolidations` | src/masterBitgoExpress/handlers/handleRecoveryConsolidations.ts:40-160 | the handler with its loop answers as the function the batch theorems are about |
| `RecoveryConsolidations.BatchExactly` | src/masterBitgoExpress/handlers/handleRecoveryConsolidations.ts:43-155 | a batch returns a list if and only if the SDK built transactions for the keys the caller named, each in its own place, and each was signed, in order, under those keys |
| `RecoveryConsolidations.BatchPends` | src/masterBitgoExpress/handlers/handleRecoveryConsolidations.ts:99-114 | a batch becomes a job if and only if it is one transaction for one AWM in async mode, and the job recovers that transaction |
| `MultisigSign.ParsesWhatItHolds` | src/masterBitgoExpress/handlers/utils/multisigSignUtils.ts:51-70 | a body parses to a context if and only if it holds that context's three fields and the parameters are an object |
| `MultisigSign.ParseAfterPack` | src/masterBitgoExpress/handlers/utils/multisigSignUtils.ts:95-107 | parsing undoes packing, if and only if the parameters are an object |
| `MultisigSign.SameRequest` | src/masterBitgoExpress/handlers/utils/multisigSignUtils.ts:77-107 | the AWM reads from a job body what it reads from the direct call |
| `SendManyFlow.AsyncRefinesSync` | src/masterBitgoExpress/handlers/handleSendMany.ts:188-216 | a request answered as pending has submitted a job on which the worker makes a submission if and only if the handler in sync mode makes the same one, parameters and answer, and the signed response has the job schema |
| `SendManyFlow.WorkerSubmitsWhatWasPacked` | src/masterBitgoExpress/handlers/utils/multisigSubmitUtils.ts:26-59 | for every kind of job the worker submits the packed parameters through that kind's handler, to the packed wallet |
| `SendManyFlow.HandleSendMany` | src/masterBitgoExpress/handlers/handleSendMany.ts:76-222 | the handler answers as the function the theorem is about, for multisig and TSS wallets |
| `SendManySubmitted.SubmitsExactly` | src/masterBitgoExpress/handlers/utils/multisigSubmitUtils.ts:18-59 | for every kind, a submission is made if and only if the platform answered it and its parameters are, key by key, the signed transaction's, with the coin's extra, the whitelisted or the consolidation's own ones over them |
| `SendManySubmitted.SendsExactly` | src/masterBitgoExpress/handlers/handleSendMany.ts:91-222 | a multisig sendMany submits if and only if the wallet and key fit, the transaction built with the caller's parameters (memo as an object, `psbt-lite` for UTXO coins) is verified, and the AWM signed it when asked under the right source and key |
| `SendManySubmitted.PendsExactly` | src/masterBitgoExpress/handlers/handleSendMany.ts:154-206 | in async mode it ends with a job under the same conditions, and the job holds the request and what follows it, field by field |
| `SendManySubmitted.LeftToSdkExactly` | src/masterBitgoExpress/handlers/handleSendMany.ts:108-150 | a TSS sendMany is left to the SDK if and only if async mode is off, the common keychain fits, the key is not the backup's and the algorithm is known; its type is a transfer unless it has one |
| `SendManySubmitted.Refusals` | src/masterBitgoExpress/handlers/handleSendMany.ts:83-133 | a request that does not fit is answered as not found or as bad, by what is missing |
| `SendManySubmitted.WorkerSendsExactly` | src/masterBitgoExpress/workers/asyncJobWorker.ts:162-194 | what the worker submits for any sign job, whatever stands in its record |
| `AsyncUtils.SignedComesThrough` | src/masterBitgoExpress/workers/asyncJobWorker.ts:31-60 | the worker gets a transaction out of a job if and only if the AWM's handler signed it and it has the schema |
| `AsyncIsSync.AsyncRecoveryIsSync` | src/masterBitgoExpress/handlers/recoveryWallet.ts:112-137 | a recovery answered as pending has one AWM, and the worker's handler completes its job, whatever else the record holds, with what the same request gets with async mode off, if and only if that has the job schema; otherwise the job fails |
| `AsyncIsSync.AsyncSendIsSync` | src/masterBitgoExpress/workers/asyncJobWorker.ts:162-194 | the worker's handler completes a sendMany job with the platform's answer to what the same request submits with async mode off, if and only if that goes through and the AWM's answer has the job schema |
| `AsyncIsSync.CompletedWith` | src/masterBitgoExpress/workers/asyncJobWorker.ts:162-218 | what any sign or recovery job is completed with, whoever submitted it |
| `AsyncJobWorker.KeygenExactly` | src/masterBitgoExpress/workers/asyncJobWorker.ts:128-160 | a keygen job ends with a wallet whose user key is the first server's and whose backup key is the second's, made with the job's parameters as an advanced onchain wallet, if and only if both answered with a keychain and the SDK makes it |
| `JobBatch.WriteDiscipline` | src/masterBitgoExpress/workers/asyncJobWorker.ts:104-126 | in every schedule, a job attempts `complete` at most once and `failed` exactly when its handler threw, a failing `complete` included, all at the listed version |
| `JobBatch.AppliedOnce` | src/shared/httpClient.ts:37-45 | at most one write per job and version is applied, in every schedule, with doubles in the listing and other writers on the bridge |
| `JobBatch.CompleteNotOverwritten` | src/masterBitgoExpress/workers/asyncJobWorker.ts:115-125 | an applied `complete` and the `failed` after it are never both applied |
| `JobBatch.OutcomeSticks` | src/masterBitgoExpress/workers/asyncJobWorker.ts:186-191 | a job only this worker writes to keeps its listed record until one write is applied, and what that write says from then on |
| `JobBatch.OnlyOwnEventsMatter` | src/masterBitgoExpress/workers/asyncJobWorker.ts:101 | a job without a rival in the listing fares in the batch as under a schedule that holds its own events only |
| `JobBatch.Independence` | src/masterBitgoExpress/workers/asyncJobWorker.ts:91-102 | for every listing and store: a job's writes, progress and record are the same in all schedules that agree on its own events if and only if the listing does not name it again with a handler and a version that the record has not passed |
| `JobBatch.DoubleListing` | src/masterBitgoExpress/workers/asyncJobWorker.ts:91-102 | a listing with such a double, and two schedules in one of which the job loses its write to it |
| `AsyncJobWorker.MpcJobsUntouched` | src/masterBitgoExpress/workers/asyncJobWorker.ts:110-114 | exactly the two MPC operations have no handler, and their jobs are never written to |
| `AsyncJobWorker.ProcessJob` | src/masterBitgoExpress/workers/asyncJobWorker.ts:104-126 | one job run through does to the bridge what its write attempts do in a batch, and a completion that is applied carries what the handler made of the job |
| `AsyncJobWorker.WorkerSafety` | src/masterBitgoExpress/workers/asyncJobWorker.ts:71-85 | over any interleaving of ticks, listings, writes and stops there is at most one flight, and the flag is set exactly while there is one |
| `AsyncJobWorker.FlagIsReleased` | src/masterBitgoExpress/workers/asyncJobWorker.ts:77-84 | from every reachable state, once the listing has arrived or failed: while the flag is set some job's next write is due, and every sequence of events, in any order, with as many due writes as are left frees the flag, whatever the bridge answers |
| `JobAcrossTicks.SubmissionCount` | src/masterBitgoExpress/workers/asyncJobWorker.ts:162-194 | in any run of the worker on true listings, a sign job that submits, and that nobody else writes to, is submitted exactly as often as a listing is taken up before the first of its writes reaches the bridge |
| `JobAcrossTicks.HandledAgain` | src/masterBitgoExpress/workers/asyncJobWorker.ts:71-126 | a later flight has the same job in hand again if and only if every write of it since it was taken up, in whatever flights, was lost before it reached the bridge |
| `JobAcrossTicks.SubmittedTwice` | src/masterBitgoExpress/workers/asyncJobWorker.ts:162-194 | for every job that submits, a run of six events in which it is submitted twice: its `complete` and its `failed` are lost |
| `JobAcrossTicks.SomeJobSubmits` | src/masterBitgoExpress/workers/asyncJobWorker.ts:162-183 | there is a job that submits |
| `AsyncJobWorker.NoJobTwice` | src/masterBitgoExpress/workers/asyncJobWorker.ts:71-102 | for every run: some job is handled twice at the same time, by one flight or by two, if and only if a waiting flight takes up a listing that names a job with a handler twice |
| `AsyncJobWorker.DoubleListingHandledTwice` | src/masterBitgoExpress/workers/asyncJobWorker.ts:91-102 | wherever in a run such a listing is taken up, the double is handled twice right after |
| `AsyncJobWorker.Poller.OnTick` | src/masterBitgoExpress/workers/asyncJobWorker.ts:71-77 | the timer callback changes the flag as the worker's step does |
| `AsyncJobWorker.Poller.OnWrote` | src/masterBitgoExpress/workers/asyncJobWorker.ts:78-102 | a job's write moves the flight on, and ends it with its last job, as the worker's step does |
| `EcdsaSigning.RoundsAreThreaded` | src/masterBitgoExpress/handlers/ecdsa.ts:24-70 | in every order of generator calls, rounds 2 and 3 reach the AWM only after their predecessors were answered; round 2 carries key, GPG key and session of one round-1 answer, whatever the SDK passes |
| `EcdsaSigning.EachMakesItsCall` | src/masterBitgoExpress/handlers/ecdsa.ts:24-70 | in every order, a generator issues one call if and only if the round before it was answered, for the transaction and the BitGo key it was given |
| `EcdsaSigning.LaterRoundsExactly` | src/advancedWalletManager/handlers/ecdsaEddsaSignTransaction.ts:241-303 | rounds 2 and 3 answer if and only if the key is there, all four inputs are, the data key unwraps, and the share generation goes through |
| `EcdsaSigning.Coherence` | src/masterBitgoExpress/handlers/ecdsa.ts:54-70 | round 3 brings the data key its session was made under if and only if no round 1 was answered since that round 2 |
| `EcdsaSigning.RepeatedRound1` | src/masterBitgoExpress/handlers/ecdsa.ts:28-32 | a run of four calls that shows the condition is needed |
| `EcdsaSigning.OnePassphrase` | src/advancedWalletManager/handlers/ecdsaEddsaSignTransaction.ts:241-303 | rounds 2 and 3 unwrap the data key the last answered round 1 generated; a round 3 that is answered had its session made under that same key |
| `EcdsaSigning.CustomSigners.Round2Generator` | src/masterBitgoExpress/handlers/ecdsa.ts:34-52 | the generator changes the variables and issues the call as the step of the runs does |
| `Consolidate.Conservation` | src/masterBitgoExpress/handlers/handleConsolidate.ts:57-136 | one result per build; the two lists merge back into the results in order; a normal return if and only if all succeeded; status 500 if and only if none did, else 202 |
| `Consolidate.EachSentOnce` | src/masterBitgoExpress/handlers/handleConsolidate.ts:66-108 | in MPC and other wallets: each build that can be sent is sent once, at the place counted by the sendable builds before it, and nothing else is sent; the others count as failures |
| `Consolidate.MessageExactly` | src/masterBitgoExpress/handlers/handleConsolidate.ts:68-104 | an MPC build is sent as its transaction request, any other as itself with its own recipients as build parameters, field by field |
| `Consolidate.BuildsExactly` | src/masterBitgoExpress/handlers/handleConsolidate.ts:26-60 | builds are sent if and only if the wallet, its keys, the coin and the addresses pass |
| `Consolidate.HandleConsolidate` | src/masterBitgoExpress/handlers/handleConsolidate.ts:16-142 | the handler's loop sends exactly these builds and ends with that outcome |
| `UrlScheme.LastSchemeWins` | src/initConfig.ts:344-351 | of two rewritings only the last one shows, so one rewriting is idempotent |
| `UrlScheme.Rewritten` | src/initConfig.ts:344-351 | rewriting for one configuration undoes any rewriting for another |
| `UrlScheme.SchemeFor` | src/initConfig.ts:344-351 | a URL ends up under http exactly when TLS is off and it is not BitGo's, and under https exactly otherwise |
| `UrlScheme.MatchedExactly` | src/initConfig.ts:345-348 | what is replaced at the front of a URL: two slashes, after a word and a colon or on their own, and nothing of any other URL |
| `UrlScheme.Unchanged` | src/initConfig.ts:344-351 | a URL is left as it is if and only if it already has the scheme |
| `UrlScheme.RestKept` | src/initConfig.ts:347-350 | two URLs come out equal if and only if they agree after their schemes |

## Left out

- Cryptography and SDK internals: the DKLS sessions, share generation and combination, OpenPGP, coin signing and wallet signature checks are functions with stated laws.
- HTTP, TLS, routing, logging and the route codecs, apart from the shape predicates that recovery and job parsing decide by.
- Concurrent calls of the ECDSA callbacks of one wallet: runs are sequences of callbacks. Two overlapping initialize callbacks could both pass the first check.
- Round numbers that are not integers.
- A lost answer to an EdDSA initialize or finalize call; lost answers are modelled for the ECDSA flow, and for both the key provider's lost answers are.
- The on-chain key generation callbacks, apart from the keychain parsing of the worker.
- EdDSA signing and its closure: it threads one data key as the ECDSA signers do, over fewer rounds.
- Recovery transactions of EdDSA, Cosmos and EVM MPC wallets, and how recovery transactions are built: almost all SDK calls.
- Request bodies in which the unsigned recovery transaction is not an object.
- Sync accelerate and consolidateUnspents: the submission happens in the SDK, so only the worker's side of their jobs is modelled.
- Time between a job's submission and its end: `getExtraPrebuildParams` and the wallet are taken to answer the worker as they would have answered the handler.
- Expiry of jobs and the bridge's storage: the bridge is its version check and its records.
- A compensation for a finalize that stored one key and failed on the other: the code promises none.
