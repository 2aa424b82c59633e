/** The Solana watcher's parser (workers/solana-watcher/src/parser.rs). */
module Parser {
  import opened Wrappers
  import opened Amounts
  import opened AmountTheorems

  /** serde_json::Value; integers and other numbers are told apart. */
  datatype Json = JNull | JBool(b: bool) | JInt(n: int) | JFloat
                | JStr(s: string) | JArr(items: seq<Json>) | JObj(fields: map<string, Json>)
  {
    function AsStr(): Option<string> { if JStr? then Some(s) else None }

    function AsU64(): Option<nat> { if JInt? && 0 <= n < 0x1_0000_0000_0000_0000 then Some(n) else None }

    function AsI64(): Option<int> {
      if JInt? && -0x8000_0000_0000_0000 <= n < 0x8000_0000_0000_0000 then Some(n) else None
    }

    function Get(key: string): Option<Json> {
      if JObj? && key in fields then Some(fields[key]) else None
    }
  }

  /** Value::pointer, one token at a time; "0" is the only array token the parser uses. */
  function At(v: Json, path: seq<string>): Option<Json>
    decreases |path|
  {
    if path == [] then Some(v)
    else
      var next := if v.JArr?
                  then (if path[0] == "0" && v.items != [] then Some(v.items[0]) else None) else v.Get(path[0]);
      if next.None? then None else At(next.value, path[1..])
  }

  function StrAt(v: Json, path: seq<string>): Option<string> {
    var found := At(v, path);
    if found.Some? then found.value.AsStr() else None
  }

  function ArrAt(v: Json, path: seq<string>): seq<Json> {
    var found := At(v, path);
    if found.Some? && found.value.JArr? then found.value.items else []
  }

  function U64At(v: Json, path: seq<string>): Option<nat> {
    var found := At(v, path);
    if found.Some? then found.value.AsU64() else None
  }

  function U8At(v: Json, path: seq<string>): Option<nat> {
    var n := U64At(v, path);
    if n.Some? && n.value < 256 then n else None
  }

  function OrElse<T>(a: Option<T>, b: Option<T>): Option<T> {
    if a.Some? then a else b
  }

  // ---------- accounts ----------

  function AccountKey(key: Json): Option<string> {
    OrElse(key.AsStr(), StrAt(key, ["pubkey"]))
  }

  function FilterKeys(keys: seq<Json>): seq<string>
    decreases |keys|
  {
    if keys == [] then []
    else (if AccountKey(keys[0]).Some? then [AccountKey(keys[0]).value] else []) + FilterKeys(keys[1..])
  }

  /** account_keys */
  function AccountKeys(tx: Json): seq<string> {
    FilterKeys(ArrAt(tx, ["transaction", "message", "accountKeys"]))
  }

  datatype AccountMeta = AccountMeta(owner: Option<string>, mint: Option<string>, decimals: Option<nat>)

  /** The account that a token balance entry is about. */
  function AccountOf(balance: Json, keys: seq<string>): Option<string> {
    var index := U64At(balance, ["accountIndex"]);
    if index.Some? && index.value < |keys| then Some(keys[index.value]) else None
  }

  function MetaOf(balance: Json): AccountMeta {
    AccountMeta(StrAt(balance, ["owner"]), StrAt(balance, ["mint"]), U8At(balance, ["uiTokenAmount", "decimals"]))
  }

  function PreBalances(tx: Json): seq<Json> { ArrAt(tx, ["meta", "preTokenBalances"]) }

  function PostBalances(tx: Json): seq<Json> { ArrAt(tx, ["meta", "postTokenBalances"]) }

  /** k is the last entry of the list about this account. */
  predicate LastAbout(entries: seq<Json>, keys: seq<string>, account: string, k: int) {
    && 0 <= k < |entries| && AccountOf(entries[k], keys) == Some(account)
    && forall j :: k < j < |entries| ==> AccountOf(entries[j], keys) != Some(account)
  }

  predicate Mentions(entries: seq<Json>, keys: seq<string>, account: string) {
    exists k :: 0 <= k < |entries| && AccountOf(entries[k], keys) == Some(account)
  }

  /** The metadata of an account is that of the last entry about it. */
  ghost predicate DescribesLast(m: map<string, AccountMeta>, entries: seq<Json>, keys: seq<string>) {
    && (forall a :: a in m <==> Mentions(entries, keys, a))
    && (forall a, k :: LastAbout(entries, keys, a, k) ==> a in m && m[a] == MetaOf(entries[k]))
  }

  lemma DescribeNext(m: map<string, AccountMeta>, entries: seq<Json>, keys: seq<string>, balance: Json)
    requires DescribesLast(m, entries, keys)
    ensures AccountOf(balance, keys).None? ==> DescribesLast(m, entries + [balance], keys)
    ensures AccountOf(balance, keys).Some? ==>
            DescribesLast(m[AccountOf(balance, keys).value := MetaOf(balance)], entries + [balance], keys)
  {
    var all, account := entries + [balance], AccountOf(balance, keys);
    var m' := if account.Some? then m[account.value := MetaOf(balance)] else m;
    forall a ensures a in m' <==> Mentions(all, keys, a) {
      if Mentions(entries, keys, a) {
        var k :| 0 <= k < |entries| && AccountOf(entries[k], keys) == Some(a);
        assert all[k] == entries[k];
      }
      if account == Some(a) { assert all[|entries|] == balance; }
      if k :| 0 <= k < |all| && AccountOf(all[k], keys) == Some(a) {
        assert k == |entries| || entries[k] == all[k];
      }
    }
    forall a, k | LastAbout(all, keys, a, k) ensures a in m' && m'[a] == MetaOf(all[k]) {
      if k < |entries| {
        assert all[|entries|] == balance;
        assert forall j :: k < j < |entries| ==> entries[j] == all[j];
        assert LastAbout(entries, keys, a, k);
      }
    }
    hide AccountOf, MetaOf;
  }

  /** token_account_metadata */
  method TokenAccountMetadata(tx: Json, keys: seq<string>) returns (metadata: map<string, AccountMeta>)
    ensures DescribesLast(metadata, PreBalances(tx) + PostBalances(tx), keys)
  {
    metadata := map[];
    var seen: seq<Json> := [];
    var lists := [PreBalances(tx), PostBalances(tx)];
    for p := 0 to 2
      invariant seen == if p == 0 then [] else if p == 1 then lists[0] else lists[0] + lists[1]
      invariant DescribesLast(metadata, seen, keys)
    {
      var balances := lists[p];
      ghost var before := seen;
      for i := 0 to |balances|
        invariant seen == before + balances[..i]
        invariant DescribesLast(metadata, seen, keys)
      {
        DescribeNext(metadata, seen, keys, balances[i]);
        var account := AccountOf(balances[i], keys);
        if account.Some? {
          metadata := metadata[account.value := MetaOf(balances[i])];
        }
        assert balances[..i + 1] == balances[..i] + [balances[i]];
        seen := seen + [balances[i]];
      }
      assert balances[..|balances|] == balances;
    }
  }

  /** What the last entry is: a post-balance if any is about the account, else a pre-balance. */
  lemma PostOverridesPre(m: map<string, AccountMeta>, pre: seq<Json>, post: seq<Json>, keys: seq<string>,
                         account: string)
    requires DescribesLast(m, pre + post, keys)
    ensures forall k :: LastAbout(post, keys, account, k) ==> account in m && m[account] == MetaOf(post[k])
    ensures forall k :: !Mentions(post, keys, account) && LastAbout(pre, keys, account, k) ==>
            account in m && m[account] == MetaOf(pre[k])
    ensures !Mentions(post, keys, account) && !Mentions(pre, keys, account) ==> account !in m
  {
    var all := pre + post;
    forall k | LastAbout(post, keys, account, k)
      ensures LastAbout(all, keys, account, |pre| + k) && all[|pre| + k] == post[k]
    {
      assert forall j :: |pre| + k < j < |all| ==> all[j] == post[j - |pre|];
    }
    forall k | !Mentions(post, keys, account) && LastAbout(pre, keys, account, k)
      ensures LastAbout(all, keys, account, k) && all[k] == pre[k]
    {
      assert forall j :: k < j < |all| ==> all[j] == if j < |pre| then pre[j] else post[j - |pre|];
    }
    if k :| 0 <= k < |all| && AccountOf(all[k], keys) == Some(account) {
      assert if k < |pre|
             then AccountOf(pre[k], keys) == Some(account) else AccountOf(post[k - |pre|], keys) == Some(account);
    }
    hide AccountOf, MetaOf;
  }

  // ---------- instructions ----------

  function InnerInstructions(groups: seq<Json>): seq<Json>
    decreases |groups|
  {
    if groups == [] then []
    else InnerInstructions(groups[..|groups| - 1]) + ArrAt(groups[|groups| - 1], ["instructions"])
  }

  /** Top-level instructions first, then the inner ones, group by group. */
  function AllInstructions(tx: Json): seq<Json> {
    ArrAt(tx, ["transaction", "message", "instructions"]) + InnerInstructions(ArrAt(tx, ["meta", "innerInstructions"]))
  }

  /** parsed_instructions */
  method ParsedInstructions(tx: Json) returns (instructions: seq<Json>)
    ensures instructions == AllInstructions(tx)
  {
    instructions := ArrAt(tx, ["transaction", "message", "instructions"]);
    ghost var top := instructions;
    var groups := ArrAt(tx, ["meta", "innerInstructions"]);
    for i := 0 to |groups|
      invariant instructions == top + InnerInstructions(groups[..i])
    {
      assert groups[..i + 1][..i] == groups[..i];
      instructions := instructions + ArrAt(groups[i], ["instructions"]);
    }
    assert groups[..|groups|] == groups;
  }

  datatype Transfer = Transfer(
    sourceAddress: string, sourceOwner: Option<string>, destinationAddress: string, destinationOwner: Option<string>,
    mint: Option<string>, amountAtomic: string, amount: string, decimals: nat)

  const TOKEN_PROGRAM := "TokenkegQfeZyiNwAJbNbGKPFXCWuBvf9Ss623VQ5DA"

  function MetaField<T>(meta: Option<AccountMeta>, field: AccountMeta -> Option<T>): Option<T> {
    if meta.Some? then field(meta.value) else None
  }

  /** The raw amount, its decimals and its text, or nothing when one of them is missing. */
  function TransferAmount(info: Json, source: Option<AccountMeta>,
                          destination: Option<AccountMeta>): Option<(string, nat, string)>
  {
    if info.Get("tokenAmount").Some? then
      var tokenAmount := info.Get("tokenAmount").value;
      var raw, decimals := StrAt(tokenAmount, ["amount"]), U8At(tokenAmount, ["decimals"]);
      if raw.None? || decimals.None? then None
      else
        var shown := StrAt(tokenAmount, ["uiAmountString"]);
        Some((raw.value, decimals.value, if shown.Some? then shown.value else FormatAtomic(raw.value, decimals.value)))
    else
      var raw := StrAt(info, ["amount"]);
      var decimals := OrElse(MetaField(destination, (m: AccountMeta) => m.decimals),
                             MetaField(source, (m: AccountMeta) => m.decimals));
      if raw.None? || decimals.None? then None
      else Some((raw.value, decimals.value, FormatAtomic(raw.value, decimals.value)))
  }

  /** parse_transfer_instruction */
  function ParseTransfer(instruction: Json, accounts: map<string, AccountMeta>): Option<Transfer> {
    var isToken := StrAt(instruction, ["program"]) == Some("spl-token")
                   || StrAt(instruction, ["programId"]) == Some(TOKEN_PROGRAM);
    var kind := StrAt(instruction, ["parsed", "type"]);
    var info := At(instruction, ["parsed", "info"]);
    if !isToken || (kind != Some("transfer") && kind != Some("transferChecked")) || info.None? then None
    else
      var from, to := StrAt(info.value, ["source"]), StrAt(info.value, ["destination"]);
      if from.None? || to.None? then None
      else
        var source := if from.value in accounts then Some(accounts[from.value]) else None;
        var destination := if to.value in accounts then Some(accounts[to.value]) else None;
        var amount := TransferAmount(info.value, source, destination);
        if amount.None? then None
        else
          Some(Transfer(
            from.value, MetaField(source, (m: AccountMeta) => m.owner),
            to.value, MetaField(destination, (m: AccountMeta) => m.owner),
            OrElse(StrAt(info.value, ["mint"]),
                   OrElse(MetaField(destination, (m: AccountMeta) => m.mint),
                          MetaField(source, (m: AccountMeta) => m.mint))),
            amount.value.0, amount.value.2, amount.value.1))
  }

  // ---------- the partition ----------

  datatype Config = Config(watchedWallet: string, usdcMint: string, confirmationStatus: string)

  datatype TransferEvidence = TransferEvidence(
    signature: string, slot: nat, blockTime: Option<int>, confirmationStatus: string,
    sourceAddress: string, sourceOwner: Option<string>, destinationAddress: string, destinationOwner: string,
    mint: string, amount: string, amountAtomic: string, decimals: nat)

  datatype Parsed = Parsed(accepted: seq<TransferEvidence>, rejected: seq<TransferEvidence>)

  datatype Header = Header(signature: string, slot: nat, blockTime: Option<int>)

  /** The RPC envelope is unwrapped unless its result is null. */
  function Body(value: Json): Json {
    if value.Get("result").Some? && !value.Get("result").value.JNull? then value.Get("result").value else value
  }

  /** A transaction without a signature or a slot is an error. */
  function HeaderOf(tx: Json): Option<Header> {
    var signature, slot := StrAt(tx, ["transaction", "signatures", "0"]), U64At(tx, ["slot"]);
    if signature.None? || slot.None? then None
    else
      var time := tx.Get("blockTime");
      Some(Header(signature.value, slot.value, if time.Some? then time.value.AsI64() else None))
  }

  function OwnerOrAddress(t: Transfer): string {
    if t.destinationOwner.Some? then t.destinationOwner.value else t.destinationAddress
  }

  /** The instruction is a parseable transfer to the watched wallet. */
  predicate Inbound(instruction: Json, accounts: map<string, AccountMeta>, config: Config) {
    var t := ParseTransfer(instruction, accounts);
    t.Some? && (t.value.destinationAddress == config.watchedWallet || OwnerOrAddress(t.value) == config.watchedWallet)
  }

  /** ... of USDC with six decimals. */
  predicate Usdc(instruction: Json, accounts: map<string, AccountMeta>, config: Config) {
    var t := ParseTransfer(instruction, accounts);
    t.Some? && (if t.value.mint.Some? then t.value.mint.value else "") == config.usdcMint && t.value.decimals == 6
  }

  function EvidenceOf(instruction: Json, accounts: map<string, AccountMeta>, config: Config,
                      h: Header): TransferEvidence
    requires Inbound(instruction, accounts, config)
  {
    var t := ParseTransfer(instruction, accounts).value;
    TransferEvidence(h.signature, h.slot, h.blockTime, config.confirmationStatus, t.sourceAddress, t.sourceOwner,
                     t.destinationAddress, OwnerOrAddress(t), if t.mint.Some? then t.mint.value else "",
                     t.amount, t.amountAtomic, t.decimals)
  }

  /** The evidence list reports exactly these instructions, in instruction order. */
  ghost predicate Reports(list: seq<TransferEvidence>, at: seq<int>, instructions: seq<Json>,
                          accounts: map<string, AccountMeta>, config: Config, h: Header)
  {
    && |at| == |list|
    && (forall i, j :: 0 <= i < j < |at| ==> at[i] < at[j])
    && (forall i :: 0 <= i < |at| ==> 0 <= at[i] < |instructions| && Inbound(instructions[at[i]], accounts, config)
                                      && list[i] == EvidenceOf(instructions[at[i]], accounts, config, h))
  }

  /** Among the first n instructions, inbound USDC transfers are in one list and other inbound ones in the other. */
  ghost predicate Partition(accepted: seq<int>, rejected: seq<int>, n: int, instructions: seq<Json>,
                            accounts: map<string, AccountMeta>, config: Config)
    requires 0 <= n <= |instructions|
  {
    && (forall k :: k in accepted <==>
        0 <= k < n && Inbound(instructions[k], accounts, config) && Usdc(instructions[k], accounts, config))
    && (forall k :: k in rejected <==>
        0 <= k < n && Inbound(instructions[k], accounts, config) && !Usdc(instructions[k], accounts, config))
  }

  lemma ReportNext(list: seq<TransferEvidence>, at: seq<int>, i: int, instructions: seq<Json>,
                   accounts: map<string, AccountMeta>, config: Config, h: Header)
    requires Reports(list, at, instructions, accounts, config, h)
    requires 0 <= i < |instructions| && Inbound(instructions[i], accounts, config)
    requires forall k :: k in at ==> k < i
    ensures Reports(list + [EvidenceOf(instructions[i], accounts, config, h)], at + [i], instructions, accounts,
                    config, h)
  {
    hide Inbound, EvidenceOf;
    forall a, b | 0 <= a < b < |at + [i]| ensures (at + [i])[a] < (at + [i])[b] {
      assert at[a] in at;
    }
  }

  lemma PartitionNext(accepted: seq<int>, rejected: seq<int>, i: int, instructions: seq<Json>,
                      accounts: map<string, AccountMeta>, config: Config)
    requires 0 <= i < |instructions| && Partition(accepted, rejected, i, instructions, accounts, config)
    ensures var inbound, usdc := Inbound(instructions[i], accounts, config), Usdc(instructions[i], accounts, config);
            Partition(if inbound && usdc then accepted + [i] else accepted,
                      if inbound && !usdc then rejected + [i] else rejected,
                      i + 1, instructions, accounts, config)
    ensures forall k :: k in accepted || k in rejected ==> k < i
  {
    hide Inbound, Usdc;
  }

  /** The loop of parse_transaction: inbound transfers are split into accepted and rejected evidence. */
  method SplitTransfers(instructions: seq<Json>, accounts: map<string, AccountMeta>, config: Config, h: Header)
    returns (accepted: seq<TransferEvidence>, rejected: seq<TransferEvidence>, ghost acceptedAt: seq<int>,
             ghost rejectedAt: seq<int>)
    ensures Reports(accepted, acceptedAt, instructions, accounts, config, h)
    ensures Reports(rejected, rejectedAt, instructions, accounts, config, h)
    ensures Partition(acceptedAt, rejectedAt, |instructions|, instructions, accounts, config)
  {
    hide ParseTransfer, Inbound, Usdc, EvidenceOf;
    accepted, rejected, acceptedAt, rejectedAt := [], [], [], [];
    for i := 0 to |instructions|
      invariant Reports(accepted, acceptedAt, instructions, accounts, config, h)
      invariant Reports(rejected, rejectedAt, instructions, accounts, config, h)
      invariant Partition(acceptedAt, rejectedAt, i, instructions, accounts, config)
    {
      hide Reports, Partition;
      PartitionNext(acceptedAt, rejectedAt, i, instructions, accounts, config);
      if !Inbound(instructions[i], accounts, config) {
        continue;
      }
      var evidence := EvidenceOf(instructions[i], accounts, config, h);
      if Usdc(instructions[i], accounts, config) {
        ReportNext(accepted, acceptedAt, i, instructions, accounts, config, h);
        accepted, acceptedAt := accepted + [evidence], acceptedAt + [i];
      } else {
        ReportNext(rejected, rejectedAt, i, instructions, accounts, config, h);
        rejected, rejectedAt := rejected + [evidence], rejectedAt + [i];
      }
    }
  }

  /** parse_transaction: the inbound transfers, partitioned into accepted and rejected evidence. */
  method ParseTransaction(value: Json, config: Config)
    returns (parsed: Option<Parsed>, ghost accounts: map<string, AccountMeta>,
                                                               ghost acceptedAt: seq<int>, ghost rejectedAt: seq<int>)
    ensures parsed.None? <==> HeaderOf(Body(value)).None?
    ensures DescribesLast(accounts, PreBalances(Body(value)) + PostBalances(Body(value)), AccountKeys(Body(value)))
    ensures parsed.Some? ==>
              var instructions, h := AllInstructions(Body(value)), HeaderOf(Body(value)).value;
              && Reports(parsed.value.accepted, acceptedAt, instructions, accounts, config, h)
              && Reports(parsed.value.rejected, rejectedAt, instructions, accounts, config, h)
              && Partition(acceptedAt, rejectedAt, |instructions|, instructions, accounts, config)
  {
    hide DescribesLast, AllInstructions, Body, HeaderOf, AccountKeys, PreBalances, PostBalances, Reports, Partition;
    var tx := Body(value);
    acceptedAt, rejectedAt := [], [];
    var header := HeaderOf(tx);
    var keys := AccountKeys(tx);
    var metadata := TokenAccountMetadata(tx, keys);
    accounts := metadata;
    if header.None? {
      return None, accounts, [], [];
    }
    var instructions := ParsedInstructions(tx);
    var accepted, rejected;
    accepted, rejected, acceptedAt, rejectedAt := SplitTransfers(instructions, metadata, config, header.value);
    parsed := Some(Parsed(accepted, rejected));
  }

  /**
   Accepted evidence whose text the watcher printed itself is accepted by the store when
   positive, with that very amount.
   */
  lemma AcceptedAmountIsExact(instruction: Json, accounts: map<string, AccountMeta>, config: Config, h: Header)
    requires Inbound(instruction, accounts, config) && Usdc(instruction, accounts, config)
    requires StrAt(At(instruction, ["parsed", "info"]).value, ["tokenAmount", "uiAmountString"]).None?
    requires AllDigits(EvidenceOf(instruction, accounts, config, h).amountAtomic)
    ensures var e := EvidenceOf(instruction, accounts, config, h);
            && IsPlain(e.amount)
            && (Valid(Plain(e.amount)) <==> NatOf(e.amountAtomic) > 0)
            && Denotes(e.amount) == Atomic(e.amountAtomic, 6)
  {
    var e := EvidenceOf(instruction, accounts, config, h);
    var info := At(instruction, ["parsed", "info"]).value;
    assert e.decimals == 6;
    assert e.amount == FormatAtomic(e.amountAtomic, 6) by {
      PrintedUnlessShown(info, e, instruction, accounts, config, h);
    }
    hide ParseTransfer, Inbound, Usdc, EvidenceOf, FormatAtomic, IsPlain, Denotes, Valid, At, StrAt;
    WatcherAmountAccepted(e.amountAtomic);
    FormatAtomicDenotes(e.amountAtomic, 6);
  }

  lemma PrintedUnlessShown(info: Json, e: TransferEvidence, instruction: Json, accounts: map<string, AccountMeta>,
                           config: Config, h: Header)
    requires Inbound(instruction, accounts, config)
    requires e == EvidenceOf(instruction, accounts, config, h)
    requires At(instruction, ["parsed", "info"]) == Some(info) && StrAt(info, ["tokenAmount", "uiAmountString"]).None?
    ensures e.amount == FormatAtomic(e.amountAtomic, e.decimals)
  {
    hide FormatAtomic;
    if info.Get("tokenAmount").Some? {
      var tokenAmount := info.Get("tokenAmount").value;
      assert ["tokenAmount", "uiAmountString"][1..] == ["uiAmountString"];
      assert At(info, ["tokenAmount", "uiAmountString"]) == At(tokenAmount, ["uiAmountString"]);
      assert StrAt(tokenAmount, ["uiAmountString"]).None?;
    }
  }
}
