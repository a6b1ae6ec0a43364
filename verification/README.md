# Verification of the btx chain core

`btx` keeps a chain of blocks whose transactions spend and make coins. This project models its core in Dafny and
proves what that core is for: that the chain index always equals a replay of its blocks, that removing a block undoes
linking it exactly, that no more money is ever unspent than was rewarded, that signed transactions verify, and that
the smaller machines underneath (byte codecs, Merkle trees, scripts, multi-signature accounts, difficulty, the block
store, the transaction pool, publish/subscribe) do what the rest relies on.

`dafny verify dfyconfig.toml` checks the whole project.

## Reading guide

| file | source | subject |
|---|---|---|
| `Common.dfy` | - | results, options, machine integers, digests |
| `Iobuf.dfy` | src/iobuf.rs | little-endian integers, length-prefixed fields, the reader and the writer |
| `Difficulty.dfy` | src/hasher.rs | digests as numbers, the compact form of a target, the retarget rule |
| `Merkle.dfy` | src/merkle.rs | tree shape, roots, partial trees |
| `Storage.dfy` | src/store.rs | the append-only store |
| `Accounts.dfy` | src/account.rs | keys and signatures as parameters (`Crypto`), multi-signature accounts |
| `Scripts.dfy` | src/script.rs | the stack machine, the operation counter, the builder |
| `Blocks.dfy` | src/block.rs | transactions and blocks: ids, bytes, addresses, checks without a chain |
| `Signing.dfy` | src/index.rs | signed messages, the full signer |
| `Counts.dfy` | src/block.rs | a block with more outputs than its count can say |
| `Journal.dfy` | src/leveldb.rs | write batches with an undo log |
| `Ledger.dfy` | src/index.rs, src/block.rs | records of the index, and what a block writes |
| `Chains.dfy` | src/index.rs | linking and popping as a state machine; replay, rollback |
| `Genesis.dfy` | src/index.rs | first blocks: the checks of a link can be met |
| `Coins.dfy` | src/index.rs | unspent outputs, maturity, what a coin stands for |
| `Supply.dfy` | src/index.rs | the money supply |
| `Schedule.dfy` | src/index.rs, src/hasher.rs | the difficulty required along a chain |
| `Rules.dfy` | src/index.rs | the rules of the chain, and that linking enforces exactly these |
| `Indexer.dfy` | src/index.rs | the index object with its database, stores and block cache |
| `Pool.dfy` | src/index.rs | the transaction pool and its iterator |
| `PubSub.dfy` | src/pubsub.rs | subscribers, backlogs and workers as atomic steps |

Objects the source changes in place are classes (`Reader`, `Writer`, `MerkleTree`, `Store`, `Account`, `Exector`,
`Script`, `IBatch`, `BlkIndexer`, `TxPool`, `TxPoolIter`). Each method is proved against a function of the old state,
and the laws are proved of those functions.

The index is stated three ways. `Chains.Link` and `Chains.Pop` are what the calls do to a database and two stores.
`Ledger.Replay` is the database a list of blocks makes from nothing, without looking at what was there before.
`Coins.Unspent` is the set of unspent outputs a list of blocks leaves. `Chains.Consistent` ties a state to a list of
blocks, `Chains.History` is the list a run of calls builds, and `Chains.IndexRefinesReplay` says that after every run,
with failed calls in it or not, the state is consistent with that list. `Chains.Grown` says that each block of a list
was accepted on top of those before; the theorems about coins, supply and difficulty hold of every such list, and so
in every reachable state. What being accepted means is told by `Rules.LinkIsRules` on the blocks of the chain, without
the index.

Hash, keys and signatures are a parameter (`Crypto.Suite`). Results need of it only what they state: nothing for
replay, rollback and supply; for signing, that a signature verifies under its own key, and that the keys and
signatures made from private keys parse back (other bytes need not); for finding an output by its outpoint, that the
transaction ids of its block differ, which follows if the hash does not collide on that block
(`Coins.TxIdsDistinct`).

## What the code does against its own intent

Each of these is stated as a lemma, with the condition under which the code does meet the intent.

- `next` decodes the record under a height key as block attributes, but that record is a block id. As written no chain
  outgrows its first retarget period (`Schedule.AsWrittenStalls`); the intended lookup is the other value of
  `Chains.Retarget`, and every result holds for both.
- The lists of a block are written with sixteen-bit counts, and no check keeps the outputs of a transaction within
  theirs: a block of 65536 smallest outputs passes and links (`Counts.WideBlockOk`, `Genesis.FirstLinks`). (As many
  inputs, each with an account, do not fit a block.) A block comes back from the store as itself exactly if the counts
  suffice (`Blocks.BlockRoundTrip`, `Chains.LinkThenPop`); otherwise its records are still undone exactly if popping
  succeeds at all, and if it cannot be read back the index is stuck (`Chains.StuckForGood`).
- The undo log is replayed in the order it was written. That restores the database exactly when each key's last record
  tells the value before the batch (`Journal.UndoExact`); two writes to one key lose it (`Journal.TwiceIsLost`).
- `extract_root` compares the bits used with the bits held plus `7 / 8`; it accepts only trees with one bit
  (`Merkle.ExtractRootAccepts`), which is all `compute` builds.
- `TxPool::remove` keeps in the fee order what it means to drop (`Pool.RemoveDisagrees`); dropping would preserve
  agreement (`Pool.DropAgrees`).
- A message can be left in a backlog that nobody drains (`PubSub.MessagesCanStrand`): exactly when a worker clears its
  flag over a backlog, until the next notification (`PubSub.StrandedExactly`). While no worker does, nothing strands.

Two further conditions are met by everything the code makes or accepts: an account survives its bytes exactly if its
arbiter mark is none or the last key, as every constructor sees to (`Accounts.BytesRoundTrip`); running two scripts as
one is running them in turn if the first counts, as every script in a checked block does (`Scripts.Composition`,
`Scripts.CompositionNeedsOps`).

## Model

| member | source | states |
|---|---|---|
| Iobuf.ReadField | src/iobuf.rs:53-65 | a length-prefixed field written by the writer reads back as itself and leaves what follows |
| Iobuf.ReadI64 | src/iobuf.rs:116-120 | a signed 64-bit amount written in two's complement reads back as itself |
| Iobuf.LowFirst | src/iobuf.rs:92-99 | integers go low byte first |
| Iobuf.SizeForm | src/iobuf.rs:185-206 | sizes past 127 go high byte first under a top bit |
| Iobuf.Reader.GetUsize | src/iobuf.rs:53-65 | the variable-length size: one byte, or two with the high byte first; the cursor moves past exactly what was read |
| Iobuf.Reader.GetFieldBytes | src/iobuf.rs:136-149 | reads a size and that many bytes, or fails on too few |
| Iobuf.Writer.Put | src/iobuf.rs:185-206 | appends size and bytes for lengths up to fifteen bits |
| Difficulty.CompactError | src/hasher.rs:239-256 | the compact form of any 256-bit number is canonical and stands for it rounded down by less than one part in 2^15 |
| Difficulty.CompactOfDecode | src/hasher.rs:146-164 | encoding a decoded 32-bit value gives it back if and only if it is canonical |
| Difficulty.CompactIdempotent | src/hasher.rs:239-256 | a second round of compacting loses nothing more, and the decoded value fits 32 bytes |
| Difficulty.LastByteWeighs | src/hasher.rs:356-361 | digests are ordered as numbers whose last byte weighs most |
| Difficulty.RetargetSafe | src/hasher.rs:201-222 | from a target within the limit the next one is at most four times as easy, and up to compact rounding the whole part of target times elapsed time over period, or the limit if that is less; the elapsed time held between a quarter of the period and four periods, all cut to 32 bits |
| Difficulty.RetargetFits | src/hasher.rs:373-381 | the product formed while retargeting fits a digest when the limit leaves room for four periods |
| Merkle.WidthByShift | src/merkle.rs:22-24 | the closed form of a level's width is repeated halving rounded up |
| Merkle.HeightLeast | src/merkle.rs:26-32 | the height found by the loop is the least one with at most one node |
| Merkle.WidthIsCeiling | src/merkle.rs:22-32 | a level holds at most one node exactly when 2^h leaves fit under it |
| Merkle.RootIsReduce | src/merkle.rs:34-54 | the recursive root equals reducing the leaves level by level, a lone last node paired with itself |
| Merkle.RootCommits | src/merkle.rs:34-54 | equally long lists with one root are equal, unless the pair hash collides on the way up |
| Merkle.HitRange | src/merkle.rs:62-69 | a node's flag says exactly whether one of the leaves under it is selected |
| Merkle.ExtractTree | src/merkle.rs:100-139 | reading a built subtree anywhere in the streams takes exactly its bits and hashes and returns its root, ids and positions |
| Merkle.TreeMatches | src/merkle.rs:55-81 | a partial tree carries exactly the selected ids and positions, in order |
| Merkle.NoTwins | src/merkle.rs:128-133 | with an injective pair hash and distinct ids two sibling hashes never look alike |
| Merkle.PartialTreeRoundTrip | src/merkle.rs:55-139 | extracting a built tree uses up all bits and hashes, never sets bad, and returns the full root with the selected ids and positions in order |
| Merkle.ExtractWhole | src/merkle.rs:100-139 | the same without injectivity, bad telling exactly whether twins were met |
| Merkle.StreamSizes | src/merkle.rs:55-81 | how many bits and hashes a built tree has at most and at least |
| Merkle.ExtractRootAccepts | src/merkle.rs:141-166 | extract_root accepts a built tree exactly if it has a single id or none selected, because of the misplaced division |
| Merkle.ExtractRootGuards | src/merkle.rs:141-166 | for any tree at all, exactly when extract_root accepts, and what it returns |
| Merkle.ComputeIsReduce | src/merkle.rs:83-99 | the tree compute builds extracts to the level-by-level root |
| Merkle.Compute | src/merkle.rs:83-99 | computing the root of any non-empty list succeeds and is the level-by-level reduction |
| Merkle.MerkleTree.Build | src/merkle.rs:55-81 | appends exactly the subtree's bits and hashes |
| Merkle.MerkleTree.ExtractAt | src/merkle.rs:100-139 | advances both cursors and sets bad exactly as the recursive reading does |
| Merkle.MerkleTree.ComputeRoot | src/merkle.rs:141-166 | the size checks of extract_root around the reading |
| Storage.PushedStep | src/store.rs:335-348 | one push keeps every byte in place, reads back, starts at the end of its file, and fails exactly on empty or oversized data |
| Storage.Durable | src/store.rs:335-379 | in every later state of a run each returned address reads back exactly what was pushed |
| Storage.RecordsApart | src/store.rs:335-348 | records of one run never share a byte |
| Storage.Conserved | src/store.rs:293-348 | the files end to end are the accepted records end to end |
| Storage.Store.CheckNext | src/store.rs:293-317 | moves to a new file exactly when the record does not fit, and returns its offset |
| Storage.Store.Append | src/store.rs:184-197 | writing piece by piece appends the whole record |
| Storage.Store.Push | src/store.rs:335-348 | the record goes to the last or a new file; every issued file stays cached |
| Storage.Store.Pull | src/store.rs:366-379 | reads a record of any issued file, failing past its end |
| Accounts.GreedyIsInOrder | src/account.rs:505-526 | the two-pointer search succeeds exactly if the signatures come from keys at strictly increasing positions |
| Accounts.MultisigMeaning | src/account.rs:527-564 | without an arbiter and with enough signatures, verification says exactly that of the first less signatures present |
| Accounts.ArbiterMeaning | src/account.rs:541-544 | with an arbiter, verification succeeds exactly if some signature present verifies under the last key, and is an error otherwise |
| Accounts.AccountFit | src/account.rs:352-376 | an account passes exactly with one to sixteen keys, all present, a threshold between one and their number, and two keys at least with an arbiter |
| Accounts.VerifyAnswers | src/account.rs:527-544 | verification answers at all exactly for such an account with enough signatures, with an arbiter its own |
| Accounts.ScanIsGreedy | src/account.rs:545-563 | the loop over slots and keys, empty slots skipped, is that search |
| Accounts.BytesRoundTrip | src/account.rs:68-160 | an account whose keys and signatures parse back reads back from its bytes, slots compacted, exactly if its arbiter mark is none or the last key |
| Accounts.ParsedIs | src/account.rs:89-160 | whatever bytes are read, the account has the numbers they start with, a slot of each kind per key, every key and no private key |
| Accounts.CompactedSame | src/account.rs:68-107 | compacting the slots changes neither the verdict of verification nor address nor signed form |
| Accounts.SignedFormCommits | src/account.rs:378-399 | the signed form of an account fixes its numbers and its keys in order |
| Accounts.AddressCommits | src/account.rs:400-423 | so does its address, unless the hash collides on the two accounts |
| Accounts.FullSigningVerifies | src/account.rs:474-480 | signing with every key of an account satisfies it, with or without an arbiter |
| Accounts.SignedReadable | src/account.rs:458-480 | an account signed with its own keys holds only keys and signatures that parse back, if those of its keys do |
| Accounts.Account.Parse | src/account.rs:89-160 | reading an account from bytes, or failing, loop by loop |
| Accounts.Account.SignWithIndex | src/account.rs:458-473 | signs one slot if the private key is there and changes nothing else |
| Accounts.Account.SignFull | src/account.rs:474-480 | signs every slot or fails at the first missing key |
| Accounts.Account.VerifyWithPublic | src/account.rs:481-504 | some signature verifies under the one key, else an error |
| Accounts.Account.VerifyFull | src/account.rs:527-564 | arbiter alone, or the first less signatures in key order |
| Scripts.SkipIsFetch | src/script.rs:498-522 | counter and machine cut a script at the same places |
| Scripts.CounterAgrees | src/script.rs:489-528 | a script that runs in n steps counts n operations |
| Scripts.RunLimits | src/script.rs:158-170 | a script runs only up to 8192 bytes and in at most 256 steps |
| Scripts.Composition | src/script.rs:158-280 | a concatenated script does exactly what its parts do in turn, errors included, if the first counts and one step limit holds for both |
| Scripts.CompositionNeedsOps | src/script.rs:489-528 | a script that does not count may swallow the start of the next |
| Scripts.ActLeaves | src/script.rs:209-268 | what each of the eight operations leaves on a stack, and when it fails |
| Scripts.ActFails | src/script.rs:209-268 | on a stack too short, and for any other byte, an operation fails |
| Scripts.VerifyForms | src/script.rs:229-257 | the verifying forms are the plain ones followed by a verify, and negation undoes itself |
| Scripts.FetchData | src/script.rs:624-640 | data put into a script comes back as one stack element, for every length |
| Scripts.FetchNumber | src/script.rs:182-200 | a number put into a script comes back with its sign, for the four widths |
| Scripts.FetchSmall | src/script.rs:176-181 | small numbers and truth values are operations by themselves |
| Scripts.OutputRuns | src/block.rs:541-551 | from any machine the output script succeeds exactly if one input script was begun and the top of the stack is an account that hashes to the address and is accepted; it takes only that off |
| Scripts.StandardOutput | src/script.rs:158-280 | any script that counts, run before an output script, succeeds with it exactly if it succeeds alone, six steps short of the limit, and leaves such an account on top |
| Scripts.StandardSpend | src/block.rs:534-551 | an account alone, then the output script, succeeds in eight steps exactly if the account hashes to the address and the environment accepts it; the stack ends empty |
| Scripts.Exector.Exec | src/script.rs:158-280 | the loop over an advancing reader is the machine's run |
| Scripts.Exector.Perform | src/script.rs:209-268 | each stack operation, its checks and its errors |
| Scripts.Script.CountOps | src/script.rs:489-528 | the counter loop, with its limits |
| Scripts.Script.Data | src/script.rs:624-640 | appends the length form that fits, nothing for no data |
| Scripts.Script.Check | src/script.rs:539-553 | a known type within its size, and countable |
| Scripts.CheckedIs | src/script.rs:530-553 | a script passes exactly if typed, countable, and at most 128 bytes for a coinbase or 2048 otherwise |
| Blocks.TxIdsEach | src/block.rs:455-461 | ids are computed for all transactions or the whole fails |
| Blocks.BlockRoundTrip | src/block.rs:359-380 | a block reads back as itself if and only if no list is longer than its sixteen-bit count |
| Counts.WideOk | src/block.rs:590-630 | a coinbase transaction of n smallest outputs passes its checks exactly up to n = 85597, its count says n exactly up to 65535 |
| Counts.WideBlockOk | src/block.rs:300-331 | the block of that transaction passes all its checks, and comes back from the store exactly if n is at most 65535 |
| Blocks.TxBack | src/block.rs:734-759 | a transaction within its counts reads back as itself |
| Blocks.HeaderBack | src/block.rs:256-276 | a header reads back from its eighty bytes |
| Blocks.StampBack | src/block.rs:183-193 | a time set in a header reads back exactly if it is neither negative nor past the sixteen-bit epoch count, and the version bits stay |
| Blocks.RereadIs | src/block.rs:359-380 | what the store gives back of a block: itself exactly within the counts, its header always |
| Blocks.CoinbaseUnique | src/block.rs:300-331 | in a checked block the first input is the only coinbase input anywhere, and the counted coinbases are one |
| Blocks.BlockOkMeans | src/block.rs:300-331 | the checks pass exactly for a well-formed block, told place by place: not from the future, headed by the root over its ids, the coinbase first and alone, every input and output of its shape, none spent at two places, sizes |
| Blocks.SpentOnceIs | src/block.rs:416-426 | the list of all outpoints is free of repeats exactly if no two places of the block spend the same output |
| Blocks.HeaderBindsIds | src/block.rs:307-310 | blocks with one root and equally many transactions have the same ids in order, unless the hash collides on the way up |
| Blocks.IdBindsHeader | src/block.rs:168-172 | a block id fixes the whole header, unless the hash collides |
| Blocks.CheckTx | src/block.rs:590-630 | early exits and running sums decide exactly: inputs and outputs in order, distinct outpoints, total in range, size |
| Blocks.CheckRepCost | src/block.rs:416-426 | accepts exactly if no output is spent twice anywhere in the block |
| Blocks.CheckBlock | src/block.rs:300-331 | the whole chain-free check of a block |
| Blocks.ComputeMerkle | src/block.rs:455-461 | the root over the ids, failing if an id fails or there is none |
| Blocks.EncodeBlock | src/block.rs:359-368 | the writer ends with exactly the block's bytes appended |
| Blocks.EncodeSignTx | src/block.rs:670-681 | the writer ends with the form ids and signatures commit to, or fails |
| Signing.OutAddressBack | src/block.rs:978-1011 | a standard output pays to the address it was made from |
| Signing.InputMeaning | src/block.rs:831-853 | an input script stands for its account: same address, same account on the stack |
| Signing.ScriptInChecked | src/block.rs:534-539 | an input script is within all limits for every account's bytes |
| Signing.ScriptOutChecked | src/block.rs:541-551 | so is every output script |
| Signing.BytesSize | src/account.rs:68-87 | an account of at most sixteen keys has at most 1749 bytes |
| Signing.StandardInputPasses | src/index.rs:1191-1217 | an input spending a standard output passes exactly if its account hashes to the address and its signatures verify the input's message |
| Signing.AnyInputPasses | src/index.rs:1191-1217 | every input script that counts passes against a standard output exactly if, run alone, it leaves on top the bytes of an account that hashes to the address and whose signatures verify the input's message |
| Signing.SignedInput | src/index.rs:902-923 | signing one input keeps its message and makes it pass |
| Signing.SigningCompletes | src/index.rs:864-934 | signing a transaction of pool accounts succeeds, changes scripts only, leaves its id and every signed message as they were, passes the signature check, and can be repeated |
| Signing.RefsCommit | src/index.rs:821-837 | the digest of the references is taken of the outpoints in order |
| Signing.OutsCommit | src/index.rs:821-837 | the signed form of standard outputs, which has no lengths, still fixes amounts, addresses and their order |
| Signing.InCommits | src/block.rs:897-903 | the signed form of an input fixes its outpoint, its keys and its sequence number |
| Signing.MessageBinds | src/index.rs:855-871 | equal messages are for the same outpoint, keys and sequence number, spending the same amount at the same address |
| Signing.IdCommits | src/block.rs:670-687 | an id fixes version, every input with outpoint, keys and sequence number, and every standard output, in order, unless the hash collides |
| Signing.SignatureBinds | src/index.rs:855-871 | transactions with an equal message have the same version, spend the same outputs and, if standard, pay the same, unless the hash collides on these |
| Signing.SignTx | src/index.rs:873-881 | the loop signs the inputs in place: all of them, or those before the first it cannot sign |
| Journal.UndoExact | src/leveldb.rs:50-138 | front-to-back replay of the undo log restores the database if and only if each touched key's last record tells its value before the batch |
| Journal.TruthfulUndone | src/leveldb.rs:50-138 | requests that are all true of the database before the batch are undone exactly |
| Journal.OncePerKey | src/leveldb.rs:50-121 | with no key touched twice, requests true in turn are true of the database before the batch |
| Journal.BackwardUndo | src/leveldb.rs:131-138 | replayed back to front the log always restores |
| Journal.TwiceIsLost | src/leveldb.rs:84-121 | front to back, a key written twice is not restored |
| Journal.LogRoundTrip | src/leveldb.rs:192-245 | a serialised log reads back if and only if every key and value is shorter than 65535 bytes |
| Journal.IBatch.Put | src/leveldb.rs:84-95 | appends the write and, if undoing is on, a removal |
| Journal.IBatch.Del | src/leveldb.rs:61-75 | appends the removal and, if told the value, its restoration |
| Journal.IBatch.Set | src/leveldb.rs:109-121 | appends the new value, and the old one to the log |
| Journal.IBatch.ReverseBytes | src/leveldb.rs:131-138 | the log's bytes |
| Journal.ParseBatch | src/leveldb.rs:221-245 | rebuilds a batch from bytes, record by record, or fails |
| Ledger.KeyBack | src/index.rs:523-556 | keys of the four kinds are told apart by their bytes |
| Ledger.ValueBack | src/index.rs:616-634 | every kind of record reads back from its bytes, block attributes if their places fit 32 bits |
| Ledger.UndoBack | src/leveldb.rs:131-245 | a stored undo log of the index is read back as the records that went in |
| Ledger.ForwardBlock | src/index.rs:1367-1427 | the writes of a link, made from the database before, are those of replay, which never looks at it |
| Ledger.BlockAt | src/index.rs:1367-1427 | what a block leaves under each key |
| Chains.IndexRefinesReplay | src/index.rs:1349-1559 | after every run of links and pops the database is the replay of the current blocks, and every block and undo log can be read |
| Chains.ExactRollback | src/index.rs:1537-1559 | the undo log parsed from its bytes and replayed forward, with the removal of the block's record, restores precisely the database before |
| Chains.BatchTruthful | src/index.rs:1367-1412 | everything a link's batch says was there, was there, and nothing under its new keys |
| Chains.LinkStep | src/index.rs:1349-1435 | a successful link puts one block on top, a failed one changes nothing |
| Chains.LinkAtomic | src/index.rs:1349-1435 | a link succeeds exactly when its checks pass; storing never fails on what passed |
| Chains.UndoLogFits | src/index.rs:1420-1424 | the undo log of any accepted block fits a file and is not empty |
| Chains.PopStep | src/index.rs:1537-1559 | popping succeeds exactly when more than the first block is left and the last can be read, and leaves the state without it |
| Chains.LinkThenPop | src/index.rs:1349-1559 | popping after linking restores the database; the block itself comes back exactly within its counts |
| Chains.Stuck | src/index.rs:1349-1559 | on top of a block that cannot be read back nothing links, and nothing pops it: every call leaves the state as it is |
| Chains.StuckForGood | src/index.rs:1349-1559 | after a run that ends so, no further run changes anything |
| Chains.GenesisFirst | src/index.rs:1385-1391 | the first block is the configured one and no other has its id |
| Genesis.FirstAccepted | src/index.rs:1349-1391 | everything link checks of a first block is met by such a block, if the configuration names it and it has worked enough |
| Genesis.FirstLinks | src/index.rs:1349-1435 | linked from nothing it is the chain, and is read back exactly if its count suffices |
| Genesis.SomeFirst | src/index.rs:1385-1391 | there is such a configuration and block for every number of outputs and either lookup |
| Chains.HeightsAre | src/index.rs:1396-1396 | the height records are exactly the blocks in order |
| Chains.IdIndexed | src/index.rs:1412-1427 | every block of the chain has its record, with height and places |
| Chains.BodiesAre | src/index.rs:1130-1153 | under an id the index reads exactly the block of the chain with that id |
| Chains.CoinIndexed | src/index.rs:1508-1532 | every coin's transaction is indexed, and no coin is higher than the chain, so its age never underflows |
| Chains.Separate | src/index.rs:1484-1495 | a block never makes a coin it spends, because coins are looked up before it |
| Chains.LookupsDecode | src/index.rs:1058-1063 | the typed lookups are what decoding the stored bytes gives: a record of a block id read as block attributes fails, and a transaction's place is read from the start of either record under an id |
| Coins.CoinsAreUnspent | src/index.rs:1497-1535 | the coin records are the unspent outputs |
| Coins.UnspentMeaning | src/index.rs:1497-1535 | a coin is there exactly if some block made it and none spent it; no coin is made by two blocks |
| Coins.MakesMeaning | src/index.rs:1520-1532 | the coins a block makes are its outputs, by id, address and number |
| Coins.SpendsMeaning | src/index.rs:1508-1519 | the coins a block takes away are those its inputs name |
| Coins.CoinMeaning | src/index.rs:1447-1458 | in every chain each coin is one output of one transaction, with its value, its mark and its block's height; looking up its outpoint finds that output if that block is regular |
| Coins.CoinsAge | src/index.rs:676-687 | a coin is spent only by a later block, one from a coinbase only a hundred blocks later |
| Coins.CoinbaseMatures | src/index.rs:676-687 | an output of a coinbase is spent at least a hundred blocks later, if no other transaction of its block has its id |
| Coins.SpendAuthorised | src/index.rs:1191-1253 | in every chain each input that is not a coinbase passed its scripts against the output it refers to, and spends a mature coin of that owner |
| Coins.NoForgedSpend | src/index.rs:1191-1217 | in every chain a standard output is only ever spent by an input whose script, run alone, leaves on top of the stack an account that hashes to the address and whose signatures verify that input's message |
| Coins.AccountSpends | src/index.rs:1191-1217 | if the input's script is just an account, it is that account |
| Coins.SpendsOutput | src/index.rs:1447-1458 | in every chain every spent coin is an output of an earlier block, of the transaction named, of the number named modulo 2^16, under the spender's address and worth what the output looked up is worth; the very output looked up if that block is regular |
| Coins.TxIdsDistinct | src/block.rs:416-426 | transactions of a checked block have different ids unless the hash collides on it |
| Coins.CoinsOverRuns | src/index.rs:1349-1559 | the same over every run of links and pops |
| Coins.CoinMeaningOverRuns | src/index.rs:1349-1559 | in every reachable state each coin is an output of the current chain, with its value, mark and height |
| Supply.BlockWorth | src/index.rs:1220-1340 | a block adds to the sum of unspent values at most what it mints less its fees |
| Supply.SupplyBound | src/index.rs:1309-1340 | all unspent outputs are worth at most the rewards of the blocks so far |
| Supply.TxBalanced | src/index.rs:1220-1280 | no transaction of a chain, coinbases apart, pays out more than its inputs are worth, and every output is positive |
| Supply.RewardsBound | src/index.rs:1297-1306 | all rewards ever come to at most a hundred coins per block of one period, the largest valid amount for the released halving |
| Supply.RewardIs | src/index.rs:1297-1306 | the reward is fifty coins halved once a period, the cut at 64 halvings changing nothing |
| Supply.RewardHalves | src/index.rs:1297-1306 | fifty coins in the first period, and in each later one half of what it was a period before |
| Supply.SupplyOverRuns | src/index.rs:1349-1559 | the bound in every reachable state |
| Supply.SumsFit | src/index.rs:1220-1253 | no sum over a transaction's inputs leaves 64 bits |
| Supply.BlockSumsFit | src/index.rs:1220-1340 | nor does a sum over its outputs, or of fees and minted amount over the block |
| Rules.NamedWorth | src/index.rs:1220-1253 | inputs naming outputs of the chain are worth what these are worth, exactly if none was spent and those of coinbases are a hundred blocks old; otherwise they are refused |
| Rules.WorthNamed | src/index.rs:1447-1495 | inputs that are worth anything name outputs of the chain |
| Rules.NamedFees | src/index.rs:1220-1280 | a transaction is let through exactly if its inputs are, every output is worth something, and they are worth it; the rest is its fee |
| Rules.NamedBlockFees | src/index.rs:1309-1335 | the sums over a block, and exactly when they come out |
| Rules.KnownIs | src/index.rs:1354-1356 | the index holds a record under a digest exactly if it is the id of a block or transaction of the chain |
| Rules.ChainWellFormed | src/index.rs:1349-1353 | every block of a chain is well formed, its header holding the root over its ids |
| Rules.ChainBindsIds | src/block.rs:307-310 | blocks of any two chains with one header and equally many transactions have the same ids, unless the hash collides |
| Rules.LinkIsRules | src/index.rs:1349-1435 | linking succeeds exactly if the block keeps the rules, told on the chain alone: well formed, new, following the last, mined to the required target, spending only what is free, paying no more than it spends, and taking no more than reward and fees |
| Rules.RunsLinkByRules | src/index.rs:1349-1559 | the same in every reachable state |
| Schedule.Chained | src/index.rs:1374-1382 | each block names the id of the one before |
| Schedule.NextIs | src/index.rs:1047-1074 | when next answers, and with what, told on the chain itself, for the lookup as written and as intended |
| Schedule.RequiredIs | src/index.rs:1047-1074 | the intended requirement on the chain alone: the easiest bits for the first two blocks, then those of the last one, and every span blocks the last target times the time since the block one span back over the period |
| Schedule.AsWrittenStalls | src/index.rs:1058-1063 | as written no chain outgrows its first retarget period |
| Schedule.NoRunRetargets | src/index.rs:1058-1063 | nor does any run of links and pops |
| Schedule.RequiredWithinLimit | src/index.rs:1047-1074 | every required target is within the limit and at most four times as easy as the last |
| Schedule.RetargetProductFits | src/hasher.rs:201-222 | along every chain the retarget product fits a digest when the limit leaves room |
| Indexer.BlkIndexer.GetBlock | src/index.rs:1130-1153 | by id or by height, the answer is that of database and store whatever the cache holds or drops |
| Indexer.FoundIs | src/index.rs:1130-1153 | by height it is the block of the chain at that height, by id the one with that id, else an error |
| Indexer.BlkIndexer.RefTxOut | src/index.rs:1447-1458 | the output an input refers to |
| Indexer.BlkIndexer.CheckTxSign | src/index.rs:1191-1217 | all non-coinbase inputs run with the outputs they spend |
| Indexer.BlkIndexer.CheckTxAmount | src/index.rs:1220-1280 | the loops over inputs and outputs with their early exits |
| Indexer.BlkIndexer.CheckBlockAmount | src/index.rs:1309-1344 | signatures, fees and the coinbase allowance of a block |
| Indexer.BlkIndexer.NextTip | src/index.rs:1047-1074 | difficulty and height of the next block |
| Indexer.BlkIndexer.WriteTxIndex | src/index.rs:1497-1535 | the batch grows by exactly the coins spent and made |
| Indexer.BlkIndexer.FillBatch | src/index.rs:1367-1412 | the batch of a link, transaction by transaction |
| Indexer.BlkIndexer.LinkBlock | src/index.rs:1349-1435 | the in-place link is the state machine's, and keeps the index consistent and the cache true |
| Indexer.BlkIndexer.PopBlock | src/index.rs:1537-1559 | so is the in-place pop, which drops the block from the cache |
| Pool.RunSound | src/index.rs:368-418 | after every run of pushes both orders hold the same transactions, none in conflict |
| Pool.RunIterates | src/index.rs:357-366 | iteration after any run yields every pooled transaction once, never rising in fee |
| Pool.AddedFlat | src/index.rs:407-416 | a push adds exactly one entry, under its fee |
| Pool.AddedLast | src/index.rs:407-416 | behind those of its own fee, leaving every other fee as it was |
| Pool.RunInOrder | src/index.rs:330-418 | after any run, entries of equal fee are iterated in the order they were let in |
| Pool.WelcomeIs | src/index.rs:368-397 | a push is let in exactly if nothing pooled has its id or spends what it spends, and it is no coinbase and well-formed by itself |
| Pool.RemoveDisagrees | src/index.rs:420-437 | as written a removal leaves exactly the removed transaction in the fee order |
| Pool.DropAgrees | src/index.rs:420-437 | dropping it instead would keep both orders in agreement |
| Pool.TxPoolIter.Next | src/index.rs:330-354 | yields the first entry left and leaves the rest, across levels |
| Pool.TxPoolIter.Drain | src/index.rs:330-366 | iterating ends, having yielded every entry once |
| Pool.TxPool.IsCostCoin | src/index.rs:445-454 | whether any pooled transaction spends the output |
| Pool.TxPool.CheckValue | src/index.rs:368-397 | what may enter the pool |
| Pool.TxPool.Push | src/index.rs:401-418 | enters both orders or neither |
| Pool.TxPool.Remove | src/index.rs:420-437 | the removal as written |
| PubSub.AtMostOneWorker | src/pubsub.rs:229-273 | over every interleaving a subscriber has at most one worker, and its flag is set exactly while it has one |
| PubSub.SubsAre | src/pubsub.rs:161-229 | a subscriber keeps its channel and stays registered until it is unregistered |
| PubSub.PerSubscriberFifo | src/pubsub.rs:161-288 | delivered, in the callback and in the backlog are together exactly the messages notified on its channel while it listened, in order, without those it was excluded from; afterwards a prefix |
| PubSub.StepStrands | src/pubsub.rs:229-273 | a step leaves a subscriber stranded exactly if its worker clears the flag over a backlog no notification under way will add to, or it was stranded and neither a notification nor its cancellation reaches it |
| PubSub.StrandedExactly | src/pubsub.rs:229-288 | over every interleaving a subscriber is stranded exactly if some worker of its did that and no such notification or cancellation came after |
| PubSub.StrandedStays | src/pubsub.rs:252-271 | nothing but another notification or its cancellation frees a stranded subscriber |
| PubSub.MessagesCanStrand | src/pubsub.rs:252-271 | a run that leaves a message in a backlog without a worker |

## Left out

- Error texts: every error is the one `Err`; where several checks fail the order is not told apart.
- Panics (key or signature bytes that do not parse, a slot index past the end, the Merkle root of no ids, a digest of more than 32 bytes, an assertion on a length, a height past 32 bits) are errors in the model; debug assertions, such as the one that block times rise, are not modelled.
- SHA-256, secp256k1, bech32 and hex: hash, keys and signatures are a parameter; an account is looked up by address digest rather than by its text.
- LevelDB, the LRU list and the thread pool: a map, a cache that may drop any entries when one is added, and steps in any order.
- Disk failures, reopening evicted store files and scanning a directory at start; file numbers are not cut to 32 bits.
- Clock and randomness: the time of a check is a parameter, mining is not modelled.
- Creating blocks and transactions (`BlkHelper`, `TxHelper`, `create_block`), the account file, configuration, `load` and the chain listener.
- The pool inside `link` and `append`, and the pool's own coins; the block cache keeps headers and transactions only.
- Ledger.ValueBack: places past 32 bits (more than four billion store files) do not read back.
- Signing.SignatureBinds: raw output scripts are signed without their lengths, so what is paid is told only for standard outputs; so in Signing.MessageBinds and Signing.IdCommits, the last also for coinbase inputs only if equally long.
- Coins.CoinMeaning: that the outpoint finds the output is told for blocks whose ids differ and whose lists fit their counts.
- Indexer.BlkIndexer.LinkBlock: the removal of linked transactions from the pool, the last thing link does, is left out; the pool is a machine of its own.
- Rules.LinkIsRules: for chains of regular blocks, whose ids differ and whose lists fit their counts; elsewhere looking up an output may find another block's or none.
- PubSub.PerSubscriberFifo: a callback that panics is not modelled, and eventual delivery is not promised.
- Reading transactions and blocks back is modelled by functions on byte sequences, not by a moving cursor.
- Positions of blocks in the store are part of the replayed records, so replay takes them from the entries.
