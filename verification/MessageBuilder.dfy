/** `SanitizedTransactionBuilder`: compiling account metas into a message, and decoding it again. */
module MessageBuilder {
  import opened Basics
  import opened Messages

  type Signature = nat

  datatype AccountMeta = AccountMeta(key: Pubkey, isSigner: bool, isWritable: bool) {
    function Type(): AccountType {
      if isSigner then (if isWritable then SignerWritable else SignerReadonly)
      else (if isWritable then Writable else Readonly)
    }
  }

  datatype AccountType = Readonly | Writable | SignerReadonly | SignerWritable

  datatype InnerInstruction = InnerInstruction(programId: Pubkey, accounts: seq<(Pubkey, AccountType)>, data: seq<nat>)

  datatype MessageHeader = MessageHeader(numRequiredSignatures: nat, numReadonlySigned: nat, numReadonlyUnsigned: nat)

  datatype CompiledInstruction = CompiledInstruction(programIdIndex: nat, accounts: seq<nat>, data: seq<nat>)

  datatype Message = Message(header: MessageHeader, accountKeys: seq<Pubkey>, instructions: seq<CompiledInstruction>)

  datatype VersionedTransaction = VersionedTransaction(signatures: seq<Signature>, message: Message)

  function SaturatingAdd(a: nat, b: nat): (r: nat)
    ensures r <= 255 && r <= a + b && (r == a + b || r == 255)
  {
    if a + b <= U8_MAX then a + b else U8_MAX
  }

  /** The low byte. */
  function AsU8(n: nat): (r: nat)
    ensures r <= 255 && r <= n && (n - r) % 256 == 0
  {
    n % (U8_MAX + 1)
  }

  // ---- Decoding, as the runtime reads a message ----

  /** Signers come first; within signers and within the others the writable come first. */
  function Decoded(m: Message, i: nat): AccountMeta
    requires i < |m.accountKeys|
  {
    var signer := i < m.header.numRequiredSignatures;
    AccountMeta(
      m.accountKeys[i],
      signer,
      if signer then i < m.header.numRequiredSignatures - m.header.numReadonlySigned
      else i < |m.accountKeys| - m.header.numReadonlyUnsigned)
  }

  // ---- The accounts of a list of metas, by type ----

  function KeysOf(metas: seq<AccountMeta>, ty: AccountType): seq<Pubkey> {
    if metas == [] then []
    else
      var init, last := KeysOf(metas[..|metas| - 1], ty), metas[|metas| - 1];
      if last.Type() == ty then init + [last.key] else init
  }

  lemma {:induction false} KeysHave(metas: seq<AccountMeta>, i: nat)
    requires i < |metas|
    ensures metas[i].key in KeysOf(metas, metas[i].Type())
  {
    if i < |metas| - 1 { KeysHave(metas[..|metas| - 1], i); }
  }

  /** The four lists share the metas among them. */
  lemma {:induction false} KeysCount(metas: seq<AccountMeta>)
    ensures |KeysOf(metas, SignerWritable)| + |KeysOf(metas, SignerReadonly)| +
            |KeysOf(metas, Writable)| + |KeysOf(metas, Readonly)| == |metas|
  {
    if metas != [] { KeysCount(metas[..|metas| - 1]); }
  }

  function InnerAccounts(metas: seq<AccountMeta>): (r: seq<(Pubkey, AccountType)>)
    ensures |r| == |metas| && forall i :: 0 <= i < |r| ==> r[i] == (metas[i].key, metas[i].Type())
  {
    seq(|metas|, i requires 0 <= i < |metas| => (metas[i].key, metas[i].Type()))
  }

  /** The last place of a key in a list. */
  function LastPlace(list: seq<Pubkey>, k: Pubkey): (r: nat)
    requires k in list
    ensures r < |list| && list[r] == k && forall j :: r < j < |list| ==> list[j] != k
  {
    if list[|list| - 1] == k then |list| - 1 else LastPlace(list[..|list| - 1], k)
  }

  /** The keys to be listed, by type, in the order they are listed in. */
  datatype Lists = Lists(signerWritable: seq<Pubkey>, signerReadonly: seq<Pubkey>, writable: seq<Pubkey>,
                         readonly: seq<Pubkey>)
  {
    function Of(ty: AccountType): seq<Pubkey> {
      match ty
      case SignerWritable => signerWritable
      case SignerReadonly => signerReadonly
      case Writable => writable
      case Readonly => readonly
    }

    /** Where the keys of a type begin; the fee payer is at 0. */
    function Start(ty: AccountType): nat {
      match ty
      case SignerWritable => 1
      case SignerReadonly => 1 + |signerWritable|
      case Writable => 1 + |signerWritable| + |signerReadonly|
      case Readonly => 1 + |signerWritable| + |signerReadonly| + |writable|
    }

    /** Where the program ids begin. */
    function End(): nat {
      Start(Readonly) + |readonly|
    }

    function All(): seq<Pubkey> {
      signerWritable + signerReadonly + writable + readonly
    }
  }

  ghost predicate Listed(accounts: seq<(Pubkey, AccountType)>, lists: Lists) {
    forall i :: 0 <= i < |accounts| ==> accounts[i].0 in lists.Of(accounts[i].1)
  }

  function Index(lists: Lists, p: (Pubkey, AccountType)): nat
    requires p.0 in lists.Of(p.1)
  {
    lists.Start(p.1) + LastPlace(lists.Of(p.1), p.0)
  }

  // ---- The builder ----

  type Positions = map<(Pubkey, AccountType), nat>

  /** The positions once the keys of a list have been placed from `base` on. */
  function PlaceAll(positions: Positions, list: seq<Pubkey>, ty: AccountType, base: nat): Positions {
    if list == [] then positions
    else PlaceAll(positions, list[..|list| - 1], ty, base)[(list[|list| - 1], ty) := base + |list| - 1]
  }

  /** A placed key is recorded at its last place, and nothing else changes. */
  lemma {:induction false} PlaceAllAt(positions: Positions, list: seq<Pubkey>, ty: AccountType, base: nat,
                                      p: (Pubkey, AccountType))
    ensures p in PlaceAll(positions, list, ty, base) <==> p in positions || (p.1 == ty && p.0 in list)
    ensures p in PlaceAll(positions, list, ty, base) ==>
      PlaceAll(positions, list, ty, base)[p] ==
      if p.1 == ty && p.0 in list then base + LastPlace(list, p.0) else positions[p]
  {
    if list != [] { PlaceAllAt(positions, list[..|list| - 1], ty, base, p); }
  }

  lemma PlaceAllNext(positions: Positions, list: seq<Pubkey>, ty: AccountType, base: nat, i: nat)
    requires i < |list|
    ensures list[..i + 1] == list[..i] + [list[i]]
    ensures PlaceAll(positions, list[..i + 1], ty, base) ==
      PlaceAll(positions, list[..i], ty, base)[(list[i], ty) := base + i]
  {
    assert list[..i + 1][..i] == list[..i];
  }

  /** Appends the keys of one type, recording where each one is. */
  method PlaceKeys(list: seq<Pubkey>, ty: AccountType, accountKeys: seq<Pubkey>, positions: Positions)
    returns (accountKeys': seq<Pubkey>, positions': Positions)
    ensures accountKeys' == accountKeys + list && positions' == PlaceAll(positions, list, ty, |accountKeys|)
  {
    accountKeys', positions' := accountKeys, positions;
    for i := 0 to |list|
      invariant accountKeys' == accountKeys + list[..i]
      invariant positions' == PlaceAll(positions, list[..i], ty, |accountKeys|)
    {
      PlaceAllNext(positions, list, ty, |accountKeys|, i);
      positions' := positions'[(list[i], ty) := |accountKeys'|];
      accountKeys' := accountKeys' + [list[i]];
    }
    assert list[..|list|] == list;
  }

  function AllPositions(lists: Lists): Positions {
    PlaceAll(PlaceAll(PlaceAll(PlaceAll(map[], lists.signerWritable, SignerWritable, lists.Start(SignerWritable)),
      lists.signerReadonly, SignerReadonly, lists.Start(SignerReadonly)),
      lists.writable, Writable, lists.Start(Writable)),
      lists.readonly, Readonly, lists.Start(Readonly))
  }

  lemma PositionIs(lists: Lists, p: (Pubkey, AccountType))
    requires p.0 in lists.Of(p.1)
    ensures p in AllPositions(lists) && AllPositions(lists)[p] == Index(lists, p)
  {
    var a := PlaceAll(map[], lists.signerWritable, SignerWritable, lists.Start(SignerWritable));
    var b := PlaceAll(a, lists.signerReadonly, SignerReadonly, lists.Start(SignerReadonly));
    var c := PlaceAll(b, lists.writable, Writable, lists.Start(Writable));
    PlaceAllAt(map[], lists.signerWritable, SignerWritable, lists.Start(SignerWritable), p);
    PlaceAllAt(a, lists.signerReadonly, SignerReadonly, lists.Start(SignerReadonly), p);
    PlaceAllAt(b, lists.writable, Writable, lists.Start(Writable), p);
    PlaceAllAt(c, lists.readonly, Readonly, lists.Start(Readonly), p);
  }

  function Programs(instructions: seq<InnerInstruction>): (r: seq<Pubkey>)
    ensures |r| == |instructions|
  {
    seq(|instructions|, i requires 0 <= i < |instructions| => instructions[i].programId)
  }

  function CompileOne(lists: Lists, item: InnerInstruction, programIndex: nat): CompiledInstruction
    requires Listed(item.accounts, lists)
  {
    CompiledInstruction(
      AsU8(programIndex),
      seq(|item.accounts|, i requires 0 <= i < |item.accounts| => AsU8(Index(lists, item.accounts[i]))),
      item.data)
  }

  /** What the builder has gathered: the accounts by type, and the counts of the header. */
  datatype Draft = Draft(
    signedMutable: seq<(Pubkey, Signature)>,
    signedReadonly: seq<(Pubkey, Signature)>,
    unsignedMutable: seq<Pubkey>,
    unsignedReadonly: seq<Pubkey>,
    numRequired: nat,
    numReadonlySigned: nat,
    numReadonlyUnsigned: nat)
  {
    function ByType(): Lists {
      Lists(Firsts(signedMutable), Firsts(signedReadonly), unsignedMutable, unsignedReadonly)
    }

    function Add(item: AccountMeta, signature: Signature): Draft {
      match item.Type()
      case SignerWritable =>
        this.(numRequired := SaturatingAdd(numRequired, 1), signedMutable := signedMutable + [(item.key, signature)])
      case SignerReadonly =>
        this.(numRequired := SaturatingAdd(numRequired, 1), numReadonlySigned := SaturatingAdd(numReadonlySigned, 1),
              signedReadonly := signedReadonly + [(item.key, signature)])
      case Writable =>
        this.(unsignedMutable := unsignedMutable + [item.key])
      case Readonly =>
        this.(numReadonlyUnsigned := SaturatingAdd(numReadonlyUnsigned, 1),
              unsignedReadonly := unsignedReadonly + [item.key])
    }
  }

  ghost predicate HaveSignatures(metas: seq<AccountMeta>, signatures: map<Pubkey, Signature>) {
    forall i :: 0 <= i < |metas| && metas[i].isSigner ==> metas[i].key in signatures
  }

  function SignatureFor(item: AccountMeta, signatures: map<Pubkey, Signature>): Signature
    requires item.isSigner ==> item.key in signatures
  {
    if item.isSigner then signatures[item.key] else 0
  }

  function AddAll(d: Draft, metas: seq<AccountMeta>, signatures: map<Pubkey, Signature>): Draft
    requires HaveSignatures(metas, signatures)
  {
    if metas == [] then d
    else
      var last := metas[|metas| - 1];
      AddAll(d, metas[..|metas| - 1], signatures).Add(last, SignatureFor(last, signatures))
  }

  /** The signatures go with their keys. */
  ghost predicate SignedBy(pairs: seq<(Pubkey, Signature)>, signatures: map<Pubkey, Signature>) {
    forall i :: 0 <= i < |pairs| ==> pairs[i].0 in signatures && pairs[i].1 == signatures[pairs[i].0]
  }

  /** Each list gets the keys of its type, in order. */
  lemma {:induction false} AddAllKeys(d: Draft, metas: seq<AccountMeta>, signatures: map<Pubkey, Signature>)
    requires HaveSignatures(metas, signatures)
    ensures var r := AddAll(d, metas, signatures);
      && Firsts(r.signedMutable) == Firsts(d.signedMutable) + KeysOf(metas, SignerWritable)
      && Firsts(r.signedReadonly) == Firsts(d.signedReadonly) + KeysOf(metas, SignerReadonly)
      && r.unsignedMutable == d.unsignedMutable + KeysOf(metas, Writable)
      && r.unsignedReadonly == d.unsignedReadonly + KeysOf(metas, Readonly)
  {
    if metas != [] {
      AddAllKeys(d, metas[..|metas| - 1], signatures);
      var before, last := AddAll(d, metas[..|metas| - 1], signatures), metas[|metas| - 1];
      match last.Type()
      case SignerWritable => FirstsNext(before.signedMutable, last.key, SignatureFor(last, signatures));
      case SignerReadonly => FirstsNext(before.signedReadonly, last.key, SignatureFor(last, signatures));
      case _ =>
    }
  }

  /** The counts are the sizes, capped. */
  lemma {:induction false} AddAllCounts(d: Draft, metas: seq<AccountMeta>, signatures: map<Pubkey, Signature>)
    requires HaveSignatures(metas, signatures) && Fitting(d)
    ensures var r := AddAll(d, metas, signatures);
      && r.numRequired == SaturatingAdd(d.numRequired,
                                        |KeysOf(metas, SignerWritable)| + |KeysOf(metas, SignerReadonly)|)
      && r.numReadonlySigned == SaturatingAdd(d.numReadonlySigned, |KeysOf(metas, SignerReadonly)|)
      && r.numReadonlyUnsigned == SaturatingAdd(d.numReadonlyUnsigned, |KeysOf(metas, Readonly)|)
  {
    if metas != [] { AddAllCounts(d, metas[..|metas| - 1], signatures); }
  }

  lemma {:induction false} AddAllSigned(d: Draft, metas: seq<AccountMeta>, signatures: map<Pubkey, Signature>)
    requires HaveSignatures(metas, signatures) && SignedBy(d.signedMutable, signatures)
    requires SignedBy(d.signedReadonly, signatures)
    ensures var r := AddAll(d, metas, signatures);
      SignedBy(r.signedMutable, signatures) && SignedBy(r.signedReadonly, signatures)
  {
    if metas != [] { AddAllSigned(d, metas[..|metas| - 1], signatures); }
  }

  lemma FirstsNext(pairs: seq<(Pubkey, Signature)>, k: Pubkey, s: Signature)
    ensures Firsts(pairs + [(k, s)]) == Firsts(pairs) + [k]
  {}

  class SanitizedTransactionBuilder {
    var instructions: seq<InnerInstruction>
    var numRequiredSignatures: nat
    var numReadonlySignedAccounts: nat
    var numReadonlyUnsignedAccounts: nat
    var signedReadonlyAccounts: seq<(Pubkey, Signature)>
    var signedMutableAccounts: seq<(Pubkey, Signature)>
    var unsignedReadonlyAccounts: seq<Pubkey>
    var unsignedMutableAccount: seq<Pubkey>
    ghost var left: nat    // how many of the read-only accounts are left over

    function Gathered(): Draft
      reads this
    {
      Draft(signedMutableAccounts, signedReadonlyAccounts, unsignedMutableAccount, unsignedReadonlyAccounts,
            numRequiredSignatures, numReadonlySignedAccounts, numReadonlyUnsignedAccounts)
    }

    /** Every account of every instruction is in the list of its type, and the counts are right as far
        as a byte goes. */
    ghost predicate Valid()
      reads this
    {
      AllInstructionsListed(instructions, Gathered().ByType()) && Tallied(Gathered(), left)
    }

    constructor ()
      ensures Valid() && instructions == [] && Gathered() == Leftover([]) && left == 0
    {
      left := 0;
      instructions, signedReadonlyAccounts, signedMutableAccounts := [], [], [];
      unsignedReadonlyAccounts, unsignedMutableAccount := [], [];
      numRequiredSignatures, numReadonlySignedAccounts, numReadonlyUnsignedAccounts := 0, 0, 0;
    }

    /** Panics if the signature of a signer is missing. */
    method CreateInstruction(programId: Pubkey, metas: seq<AccountMeta>, signatures: map<Pubkey, Signature>,
                             data: seq<nat>)
      requires Valid() && HaveSignatures(metas, signatures)
      modifies this
      ensures Valid() && Gathered() == AddAll(old(Gathered()), metas, signatures) && left == old(left)
      ensures instructions == old(instructions) + [InnerInstruction(programId, InnerAccounts(metas), data)]
    {
      ghost var before := Gathered();
      for i := 0 to |metas|
        invariant instructions == old(instructions) && left == old(left)
        invariant Gathered() == AddAll(before, metas[..i], signatures)
      {
        assert metas[..i + 1][..i] == metas[..i] && metas[..i + 1][i] == metas[i];
        AddMeta(metas[i], signatures);
      }
      assert metas[..|metas|] == metas;
      StillListed(before, metas, signatures, instructions);
      AddAllTallied(before, left, metas, signatures);
      instructions := instructions + [InnerInstruction(programId, InnerAccounts(metas), data)];
    }

    method AddMeta(item: AccountMeta, signatures: map<Pubkey, Signature>)
      requires item.isSigner ==> item.key in signatures
      modifies this
      ensures instructions == old(instructions) && left == old(left)
      ensures Gathered() == old(Gathered()).Add(item, SignatureFor(item, signatures))
    {
      match item.Type() {
        case SignerWritable =>
          numRequiredSignatures := SaturatingAdd(numRequiredSignatures, 1);
          signedMutableAccounts := signedMutableAccounts + [(item.key, signatures[item.key])];
        case SignerReadonly =>
          numRequiredSignatures := SaturatingAdd(numRequiredSignatures, 1);
          numReadonlySignedAccounts := SaturatingAdd(numReadonlySignedAccounts, 1);
          signedReadonlyAccounts := signedReadonlyAccounts + [(item.key, signatures[item.key])];
        case Writable =>
          unsignedMutableAccount := unsignedMutableAccount + [item.key];
        case Readonly =>
          numReadonlyUnsignedAccounts := SaturatingAdd(numReadonlyUnsignedAccounts, 1);
          unsignedReadonlyAccounts := unsignedReadonlyAccounts + [item.key];
      }
    }

    /** Lays the keys out, compiles every instruction against the layout, and cleans up; the read-only
        unsigned accounts stay behind. */
    method Build(feePayer: (Pubkey, Signature)) returns (tx: VersionedTransaction)
      requires Valid()
      modifies this
      ensures Compiled(tx, feePayer, old(Gathered()), old(instructions)) && Tallied(old(Gathered()), old(left))
      ensures Valid() && instructions == [] && Gathered() == Leftover(old(unsignedReadonlyAccounts))
      ensures left == |old(unsignedReadonlyAccounts)|
    {
      var lists := Gathered().ByType();
      var header := MessageHeader(SaturatingAdd(numRequiredSignatures, 1), numReadonlySignedAccounts,
                                  SaturatingAdd(numReadonlyUnsignedAccounts, 1));
      var signatures := [feePayer.1] + Seconds(signedMutableAccounts) + Seconds(signedReadonlyAccounts);
      var keys, positions := LayOut(feePayer.0, lists);
      var items := CleanUp();
      var accountKeys, compiled := CompileAll(items, lists, positions, keys);
      tx := VersionedTransaction(signatures, Message(header, accountKeys, compiled));
    }

    method CleanUp() returns (items: seq<InnerInstruction>)
      modifies this
      ensures items == old(instructions) && instructions == [] && Gathered() == Leftover(old(unsignedReadonlyAccounts))
      ensures left == |old(unsignedReadonlyAccounts)|
    {
      left := |unsignedReadonlyAccounts|;
      items := instructions;
      instructions := [];
      numRequiredSignatures := 0;
      numReadonlySignedAccounts := 0;
      numReadonlyUnsignedAccounts := 0;
      signedMutableAccounts := [];
      signedReadonlyAccounts := [];
      unsignedMutableAccount := [];
    }
  }

  /** Nothing gathered, but for read-only accounts left over from messages built before. */
  function Leftover(readonly: seq<Pubkey>): Draft {
    Draft([], [], [], readonly, 0, 0, 0)
  }

  ghost predicate Fitting(d: Draft) {
    d.numRequired <= U8_MAX && d.numReadonlySigned <= U8_MAX && d.numReadonlyUnsigned <= U8_MAX
  }

  ghost predicate AllInstructionsListed(items: seq<InnerInstruction>, lists: Lists) {
    forall j :: 0 <= j < |items| ==> Listed(items[j].accounts, lists)
  }

  /** The transaction compiled from what was gathered. */
  ghost predicate Compiled(tx: VersionedTransaction, feePayer: (Pubkey, Signature), d: Draft,
                           items: seq<InnerInstruction>)
  {
    && tx.message.header == MessageHeader(SaturatingAdd(d.numRequired, 1), d.numReadonlySigned,
                                          SaturatingAdd(d.numReadonlyUnsigned, 1))
    && tx.message.accountKeys == [feePayer.0] + d.ByType().All() + Programs(items)
    && tx.signatures == [feePayer.1] + Seconds(d.signedMutable) + Seconds(d.signedReadonly)
    && AllInstructionsListed(items, d.ByType())
    && |tx.message.instructions| == |items|
    && forall j :: 0 <= j < |items| ==>
         tx.message.instructions[j] == CompileOne(d.ByType(), items[j], d.ByType().End() + j)
  }

  method LayOut(feePayer: Pubkey, lists: Lists) returns (accountKeys: seq<Pubkey>, positions: Positions)
    ensures accountKeys == [feePayer] + lists.All() && positions == AllPositions(lists)
  {
    accountKeys, positions := [feePayer], map[];
    accountKeys, positions := PlaceKeys(lists.signerWritable, SignerWritable, accountKeys, positions);
    accountKeys, positions := PlaceKeys(lists.signerReadonly, SignerReadonly, accountKeys, positions);
    accountKeys, positions := PlaceKeys(lists.writable, Writable, accountKeys, positions);
    accountKeys, positions := PlaceKeys(lists.readonly, Readonly, accountKeys, positions);
  }

  lemma StillListed(d: Draft, metas: seq<AccountMeta>, signatures: map<Pubkey, Signature>, items: seq<InnerInstruction>)
    requires HaveSignatures(metas, signatures) && Fitting(d) && AllInstructionsListed(items, d.ByType())
    ensures var r := AddAll(d, metas, signatures);
      && Fitting(r) && AllInstructionsListed(items, r.ByType()) && Listed(InnerAccounts(metas), r.ByType())
  {
    AddAllKeys(d, metas, signatures);
    AddAllCounts(d, metas, signatures);
    var lists, lists' := d.ByType(), AddAll(d, metas, signatures).ByType();
    forall ty: AccountType ensures lists'.Of(ty) == lists.Of(ty) + KeysOf(metas, ty) {}
    forall j | 0 <= j < |items| ensures Listed(items[j].accounts, lists') {
      assert Listed(items[j].accounts, lists);
    }
    forall i | 0 <= i < |metas| ensures metas[i].key in lists'.Of(metas[i].Type()) {
      KeysHave(metas, i);
    }
  }

  /** Appends each program id and compiles its instruction. */
  method CompileAll(items: seq<InnerInstruction>, lists: Lists, positions: Positions, keys: seq<Pubkey>)
    returns (accountKeys: seq<Pubkey>, compiled: seq<CompiledInstruction>)
    requires positions == AllPositions(lists) && |keys| == lists.End()
    requires AllInstructionsListed(items, lists)
    ensures accountKeys == keys + Programs(items) && |compiled| == |items|
    ensures forall j :: 0 <= j < |items| ==> compiled[j] == CompileOne(lists, items[j], lists.End() + j)
  {
    accountKeys, compiled := keys, [];
    for j := 0 to |items|
      invariant accountKeys == keys + Programs(items[..j]) && |compiled| == j
      invariant forall i :: 0 <= i < j ==> compiled[i] == CompileOne(lists, items[i], lists.End() + i)
    {
      var item := items[j];
      forall i | 0 <= i < |item.accounts|
        ensures item.accounts[i] in positions && positions[item.accounts[i]] == Index(lists, item.accounts[i])
      {
        PositionIs(lists, item.accounts[i]);
      }
      var accounts := seq(|item.accounts|, i requires 0 <= i < |item.accounts| && item.accounts[i] in positions =>
        AsU8(positions[item.accounts[i]]));
      accountKeys := accountKeys + [item.programId];
      compiled := compiled + [CompiledInstruction(AsU8(|accountKeys| - 1), accounts, item.data)];
      assert Programs(items[..j + 1]) == Programs(items[..j]) + [item.programId];
    }
    assert items[..|items|] == items;
  }

  function Firsts(pairs: seq<(Pubkey, Signature)>): (r: seq<Pubkey>)
    ensures |r| == |pairs| && forall i :: 0 <= i < |r| ==> r[i] == pairs[i].0
  {
    seq(|pairs|, i requires 0 <= i < |pairs| => pairs[i].0)
  }

  function Seconds(pairs: seq<(Pubkey, Signature)>): (r: seq<Signature>)
    ensures |r| == |pairs| && forall i :: 0 <= i < |r| ==> r[i] == pairs[i].1
  {
    seq(|pairs|, i requires 0 <= i < |pairs| => pairs[i].1)
  }

  // ---- Round trip ----

  /** The key of an account stands at its index. */
  lemma KeyAtIndex(lists: Lists, fee: Pubkey, rest: seq<Pubkey>, p: (Pubkey, AccountType))
    requires p.0 in lists.Of(p.1)
    ensures var keys := [fee] + lists.All() + rest; Index(lists, p) < |keys| && keys[Index(lists, p)] == p.0
    ensures lists.Start(p.1) <= Index(lists, p) < lists.Start(p.1) + |lists.Of(p.1)|
  {
    var r := LastPlace(lists.Of(p.1), p.0);
    match p.1
    case SignerWritable => assert lists.All()[r] == p.0;
    case SignerReadonly => assert lists.All()[|lists.signerWritable| + r] == p.0;
    case Writable => assert lists.All()[|lists.signerWritable| + |lists.signerReadonly| + r] == p.0;
    case Readonly => assert lists.All()[|lists.signerWritable| + |lists.signerReadonly| + |lists.writable| + r] == p.0;
  }

  function MetaOf(p: (Pubkey, AccountType)): AccountMeta {
    AccountMeta(p.0, p.1 == SignerWritable || p.1 == SignerReadonly, p.1 == SignerWritable || p.1 == Writable)
  }

  /** An index within its type's part of the layout decodes to that type. */
  lemma IndexDecodes(m: Message, lists: Lists, i: nat, p: (Pubkey, AccountType))
    requires |m.accountKeys| == lists.End() + 1 && i < |m.accountKeys| && m.accountKeys[i] == p.0
    requires lists.Start(p.1) <= i < lists.Start(p.1) + |lists.Of(p.1)|
    requires m.header.numRequiredSignatures == 1 + |lists.signerWritable| + |lists.signerReadonly|
    requires m.header.numReadonlySigned == |lists.signerReadonly|
    requires m.header.numReadonlyUnsigned <= |lists.readonly| + 1
    requires p.1 == Readonly ==> i >= |m.accountKeys| - m.header.numReadonlyUnsigned
    ensures Decoded(m, i) == MetaOf(p)
  {}

  /** A key of the metas is found among their own read-only accounts, not among those left over. */
  lemma LastPlaceInTail(head: seq<Pubkey>, tail: seq<Pubkey>, k: Pubkey)
    requires k in tail
    ensures k in head + tail && LastPlace(head + tail, k) >= |head|
  {
    var j :| 0 <= j < |tail| && tail[j] == k;
    assert (head + tail)[|head| + j] == k;
  }

  /** A message of one instruction, from a builder that may have been used before. */
  ghost predicate SingleMessage(tx: VersionedTransaction, feePayer: (Pubkey, Signature), leftover: seq<Pubkey>,
                                metas: seq<AccountMeta>, signatures: map<Pubkey, Signature>, program: Pubkey,
                                data: seq<nat>)
    requires HaveSignatures(metas, signatures)
  {
    && Compiled(tx, feePayer, AddAll(Leftover(leftover), metas, signatures),
                [InnerInstruction(program, InnerAccounts(metas), data)])
    && |leftover| + |metas| + 2 <= U8_MAX + 1
  }

  function ListsFor(leftover: seq<Pubkey>, metas: seq<AccountMeta>): Lists {
    Lists(KeysOf(metas, SignerWritable), KeysOf(metas, SignerReadonly), KeysOf(metas, Writable),
          leftover + KeysOf(metas, Readonly))
  }

  lemma SingleDraft(leftover: seq<Pubkey>, metas: seq<AccountMeta>, signatures: map<Pubkey, Signature>)
    requires HaveSignatures(metas, signatures) && |leftover| + |metas| + 2 <= U8_MAX + 1
    ensures var d, lists := AddAll(Leftover(leftover), metas, signatures), ListsFor(leftover, metas);
      && d.ByType() == lists && lists.End() == |leftover| + |metas| + 1
      && d.numRequired == |lists.signerWritable| + |lists.signerReadonly| < U8_MAX
      && d.numReadonlySigned == |lists.signerReadonly| && d.numReadonlyUnsigned == |KeysOf(metas, Readonly)| < U8_MAX
  {
    AddAllKeys(Leftover(leftover), metas, signatures);
    AddAllCounts(Leftover(leftover), metas, signatures);
    KeysCount(metas);
    assert Firsts([]) == [];
  }

  /** The shape of such a message. */
  lemma SingleShape(tx: VersionedTransaction, feePayer: (Pubkey, Signature), leftover: seq<Pubkey>,
                    metas: seq<AccountMeta>, signatures: map<Pubkey, Signature>, program: Pubkey, data: seq<nat>)
    returns (lists: Lists)
    requires HaveSignatures(metas, signatures)
    requires SingleMessage(tx, feePayer, leftover, metas, signatures, program, data)
    ensures lists == ListsFor(leftover, metas) == AddAll(Leftover(leftover), metas, signatures).ByType()
    ensures lists.End() == |leftover| + |metas| + 1
    ensures tx.message.header == MessageHeader(1 + |lists.signerWritable| + |lists.signerReadonly|,
                                               |lists.signerReadonly|,
                                               |KeysOf(metas, Readonly)| + 1)
    ensures tx.message.accountKeys == [feePayer.0] + lists.All() + [program]
    ensures |tx.message.accountKeys| == lists.End() + 1
    ensures Listed(InnerAccounts(metas), lists) && |tx.message.instructions| == 1
    ensures tx.message.instructions[0] ==
      CompileOne(lists, InnerInstruction(program, InnerAccounts(metas), data), lists.End())
  {
    SingleDraft(leftover, metas, signatures);
    lists := ListsFor(leftover, metas);
    var items := [InnerInstruction(program, InnerAccounts(metas), data)];
    assert Programs(items) == [program];
    assert Listed(items[0].accounts, lists);
    assert tx.message.instructions[0] == CompileOne(lists, items[0], lists.End() + 0);
  }

  /** Round trip: each compiled index of the instruction decodes to the meta it was compiled from,
      whatever keys repeat and whatever was left over from earlier messages. */
  lemma MetasRoundTrip(tx: VersionedTransaction, feePayer: (Pubkey, Signature), leftover: seq<Pubkey>,
                       metas: seq<AccountMeta>, signatures: map<Pubkey, Signature>, program: Pubkey, data: seq<nat>,
                       i: nat)
    requires HaveSignatures(metas, signatures)
    requires SingleMessage(tx, feePayer, leftover, metas, signatures, program, data)
    requires i < |metas|
    ensures |tx.message.instructions| == 1 && |tx.message.instructions[0].accounts| == |metas|
    ensures var index := tx.message.instructions[0].accounts[i];
      index < |tx.message.accountKeys| && Decoded(tx.message, index) == metas[i]
  {
    var lists := SingleShape(tx, feePayer, leftover, metas, signatures, program, data);
    var p := (metas[i].key, metas[i].Type());
    assert InnerAccounts(metas)[i] == p;
    IndexFits(lists, p);
    assert tx.message.instructions[0].accounts[i] == Index(lists, p);
    if p.1 == Readonly {
      KeysHave(metas, i);
      LastPlaceInTail(leftover, KeysOf(metas, Readonly), p.0);
    }
    KeyAtIndex(lists, feePayer.0, [program], p);
    IndexDecodes(tx.message, lists, Index(lists, p), p);
  }

  lemma IndexFits(lists: Lists, p: (Pubkey, AccountType))
    requires p.0 in lists.Of(p.1) && lists.End() <= U8_MAX
    ensures AsU8(Index(lists, p)) == Index(lists, p)
  {
    Fits(Index(lists, p));
  }

  /** The fee payer decodes to a writable signer. */
  lemma FeePayerRoundTrip(tx: VersionedTransaction, feePayer: (Pubkey, Signature), leftover: seq<Pubkey>,
                          metas: seq<AccountMeta>, signatures: map<Pubkey, Signature>, program: Pubkey, data: seq<nat>)
    requires HaveSignatures(metas, signatures)
    requires SingleMessage(tx, feePayer, leftover, metas, signatures, program, data)
    ensures |tx.message.accountKeys| > 0 && Decoded(tx.message, 0) == AccountMeta(feePayer.0, true, true)
  {
    var lists := SingleShape(tx, feePayer, leftover, metas, signatures, program, data);
  }

  /** The program id decodes to a read-only account that does not sign. */
  lemma ProgramRoundTrip(tx: VersionedTransaction, feePayer: (Pubkey, Signature), leftover: seq<Pubkey>,
                         metas: seq<AccountMeta>, signatures: map<Pubkey, Signature>, program: Pubkey, data: seq<nat>)
    requires HaveSignatures(metas, signatures)
    requires SingleMessage(tx, feePayer, leftover, metas, signatures, program, data)
    ensures |tx.message.instructions| == 1 && tx.message.instructions[0].data == data
    ensures var index := tx.message.instructions[0].programIdIndex;
      index < |tx.message.accountKeys| && Decoded(tx.message, index) == AccountMeta(program, false, false)
  {
    var lists := SingleShape(tx, feePayer, leftover, metas, signatures, program, data);
    Fits(lists.End());
    LastKey([feePayer.0] + lists.All(), program);
    ProgramDecodes(tx.message, lists.End());
  }

  lemma Fits(n: nat)
    requires n <= U8_MAX
    ensures AsU8(n) == n
  {}

  lemma LastKey(keys: seq<Pubkey>, k: Pubkey)
    ensures (keys + [k])[|keys|] == k
  {}

  lemma ProgramDecodes(m: Message, i: nat)
    requires |m.accountKeys| == i + 1 && m.header.numRequiredSignatures <= i && m.header.numReadonlyUnsigned > 0
    ensures Decoded(m, i) == AccountMeta(m.accountKeys[i], false, false)
  {}

  /** The signatures are as many as the header asks for, and each belongs to the key at its place. */
  lemma SignaturesAlign(tx: VersionedTransaction, feePayer: (Pubkey, Signature), leftover: seq<Pubkey>,
                        metas: seq<AccountMeta>, signatures: map<Pubkey, Signature>, program: Pubkey, data: seq<nat>,
                        k: nat)
    requires HaveSignatures(metas, signatures)
    requires SingleMessage(tx, feePayer, leftover, metas, signatures, program, data)
    ensures 0 < |tx.signatures| == tx.message.header.numRequiredSignatures <= |tx.message.accountKeys|
    ensures tx.signatures[0] == feePayer.1
    ensures 0 < k < |tx.signatures| ==>
      tx.message.accountKeys[k] in signatures && tx.signatures[k] == signatures[tx.message.accountKeys[k]]
  {
    var lists := SingleShape(tx, feePayer, leftover, metas, signatures, program, data);
    var d := AddAll(Leftover(leftover), metas, signatures);
    AddAllSigned(Leftover(leftover), metas, signatures);
    if 0 < k < |tx.signatures| {
      SignerAt(d, signatures, k - 1);
      Shifted(feePayer.1, Seconds(d.signedMutable), Seconds(d.signedReadonly), k);
      Shifted(feePayer.0, lists.All(), [program], k);
    }
  }

  lemma Shifted<T>(head: T, a: seq<T>, b: seq<T>, k: nat)
    requires 0 < k < 1 + |a| + |b|
    ensures ([head] + a + b)[k] == (a + b)[k - 1]
  {}

  /** The key and the signature of the signer at place `k` belong together. */
  lemma SignerAt(d: Draft, signatures: map<Pubkey, Signature>, k: nat)
    requires SignedBy(d.signedMutable, signatures) && SignedBy(d.signedReadonly, signatures)
    requires k < |d.signedMutable| + |d.signedReadonly|
    ensures var key, given := d.ByType().All()[k], (Seconds(d.signedMutable) + Seconds(d.signedReadonly))[k];
      key in signatures && given == signatures[key]
  {
    var n := |d.signedMutable|;
    if k < n {
      assert d.ByType().All()[k] == d.signedMutable[k].0;
    } else {
      assert d.ByType().All()[k] == d.signedReadonly[k - n].0;
    }
  }

  ghost predicate Shows(m: Message, meta: AccountMeta) {
    exists i :: 0 <= i < |m.accountKeys| && Decoded(m, i) == meta
  }

  /** What earlier messages left over is listed too, and as writable: the message holds just what was
      asked for exactly when nothing was left over. */
  lemma LeftoversAreListed(tx: VersionedTransaction, feePayer: (Pubkey, Signature), leftover: seq<Pubkey>,
                           metas: seq<AccountMeta>, signatures: map<Pubkey, Signature>, program: Pubkey, data: seq<nat>)
    requires HaveSignatures(metas, signatures)
    requires SingleMessage(tx, feePayer, leftover, metas, signatures, program, data)
    ensures |tx.message.accountKeys| == |metas| + 2 <==> leftover == []
    ensures forall j :: 0 <= j < |leftover| ==> Shows(tx.message, AccountMeta(leftover[j], false, true))
  {
    var lists := SingleShape(tx, feePayer, leftover, metas, signatures, program, data);
    forall j | 0 <= j < |leftover| ensures Shows(tx.message, AccountMeta(leftover[j], false, true)) {
      var i := lists.Start(Readonly) + j;
      assert lists.All()[i - 1] == lists.readonly[j] == leftover[j];
      assert Decoded(tx.message, i) == AccountMeta(leftover[j], false, true);
    }
  }

  // ---- Messages of several instructions ----

  /** The accounts of each type are counted, as far as a byte goes; the first `left` of the read-only
      ones are not, since they were left over. */
  ghost predicate Tallied(d: Draft, left: nat) {
    && left <= |d.unsignedReadonly|
    && d.numRequired == Min(|d.signedMutable| + |d.signedReadonly|, U8_MAX)
    && d.numReadonlySigned == Min(|d.signedReadonly|, U8_MAX)
    && d.numReadonlyUnsigned == Min(|d.unsignedReadonly| - left, U8_MAX)
  }

  lemma {:induction false} AddAllTallied(d: Draft, left: nat, metas: seq<AccountMeta>,
                                         signatures: map<Pubkey, Signature>)
    requires Tallied(d, left) && HaveSignatures(metas, signatures)
    ensures Tallied(AddAll(d, metas, signatures), left)
  {
    if metas != [] { AddAllTallied(d, left, metas[..|metas| - 1], signatures); }
  }

  /** A message of at most 256 keys and at least one instruction, from what was gathered. */
  ghost predicate Sized(tx: VersionedTransaction, feePayer: (Pubkey, Signature), d: Draft, left: nat,
                        items: seq<InnerInstruction>)
  {
    Compiled(tx, feePayer, d, items) && Tallied(d, left) && items != [] && d.ByType().End() + |items| <= U8_MAX + 1
  }

  /** The keys that decode as signers and as writable, exactly: of the read-only accounts those left
      over and one more for every instruction but the first. */
  lemma WritableExactly(tx: VersionedTransaction, feePayer: (Pubkey, Signature), d: Draft, left: nat,
                        items: seq<InnerInstruction>, i: nat)
    requires Sized(tx, feePayer, d, left, items) && i < |tx.message.accountKeys|
    ensures var lists := d.ByType();
      && (Decoded(tx.message, i).isSigner <==> i < lists.Start(Writable))
      && (Decoded(tx.message, i).isWritable <==>
            || i < lists.Start(SignerReadonly)
            || lists.Start(Writable) <= i < lists.Start(Readonly) + left + |items| - 1)
  {
    assert |tx.message.accountKeys| == d.ByType().End() + |items|;
  }

  /** An account of an instruction decodes to what was asked for if and only if it is not a read-only
      one whose place is among those. */
  lemma AccountsExactly(tx: VersionedTransaction, feePayer: (Pubkey, Signature), d: Draft, left: nat,
                        items: seq<InnerInstruction>, j: nat, a: nat)
    requires Sized(tx, feePayer, d, left, items) && j < |items| && a < |items[j].accounts|
    ensures var p := items[j].accounts[a];
      && p.0 in d.ByType().Of(p.1)
      && |tx.message.instructions| == |items| && |tx.message.instructions[j].accounts| == |items[j].accounts|
      && var index := tx.message.instructions[j].accounts[a];
         && index < |tx.message.accountKeys|
         && (Decoded(tx.message, index) == MetaOf(p) <==>
               (p.1 == Readonly ==> LastPlace(d.ByType().readonly, p.0) >= left + |items| - 1))
  {
    var lists, p := d.ByType(), items[j].accounts[a];
    assert Listed(items[j].accounts, lists);
    IndexFits(lists, p);
    assert tx.message.instructions[j] == CompileOne(lists, items[j], lists.End() + j);
    KeyAtIndex(lists, feePayer.0, Programs(items), p);
    WritableExactly(tx, feePayer, d, left, items, Index(lists, p));
  }

  /** A program id decodes to a read-only account if and only if the read-only accounts asked for are
      enough to make up for the programs after it that are not counted. */
  lemma ProgramsExactly(tx: VersionedTransaction, feePayer: (Pubkey, Signature), d: Draft, left: nat,
                        items: seq<InnerInstruction>, j: nat)
    requires Sized(tx, feePayer, d, left, items) && j < |items|
    ensures |tx.message.instructions| == |items|
    ensures var index := tx.message.instructions[j].programIdIndex;
      && index < |tx.message.accountKeys|
      && (Decoded(tx.message, index) == AccountMeta(items[j].programId, false, false) <==>
            |d.unsignedReadonly| - left + j >= |items| - 1)
  {
    var lists := d.ByType();
    assert tx.message.instructions[j] == CompileOne(lists, items[j], lists.End() + j);
    Fits(lists.End() + j);
    assert tx.message.accountKeys[lists.End() + j] == Programs(items)[j] == items[j].programId;
    WritableExactly(tx, feePayer, d, left, items, lists.End() + j);
  }

  /** A message with one read-only account, from a builder not used before. */
  method BuildReadonly(builder: SanitizedTransactionBuilder, feePayer: (Pubkey, Signature), program: Pubkey,
                       account: Pubkey)
    returns (tx: VersionedTransaction)
    requires builder.Valid() && builder.Gathered() == Leftover([]) && builder.instructions == []
    modifies builder
    ensures Shows(tx.message, AccountMeta(account, false, false))
    ensures builder.Valid() && builder.Gathered() == Leftover([account]) && builder.instructions == []
  {
    var metas := [AccountMeta(account, false, false)];
    builder.CreateInstruction(program, metas, map[], []);
    AddAllKeys(Leftover([]), metas, map[]);
    assert KeysOf(metas, Readonly) == [account];
    tx := builder.Build(feePayer);
    MetasRoundTrip(tx, feePayer, [], metas, map[], program, [], 0);
  }

  /** A builder used twice: the read-only account of the first message is writable in the second, which
      did not ask for it. */
  method LeftoverIsWritable(feePayer: (Pubkey, Signature), program: Pubkey, account: Pubkey)
    returns (first: VersionedTransaction, second: VersionedTransaction)
    ensures Shows(first.message, AccountMeta(account, false, false))
    ensures |second.message.instructions| == 1 && second.message.instructions[0].accounts == []
    ensures Shows(second.message, AccountMeta(account, false, true))
  {
    var builder := new SanitizedTransactionBuilder();
    first := BuildReadonly(builder, feePayer, program, account);
    builder.CreateInstruction(program, [], map[], []);
    second := builder.Build(feePayer);
    ghost var leftover := [account];
    LeftoversAreListed(second, feePayer, leftover, [], map[], program, []);
    assert Shows(second.message, AccountMeta(leftover[0], false, true));
    ghost var lists := SingleShape(second, feePayer, leftover, [], map[], program, []);
  }

  /** A message of two instructions: the read-only account of the first one is not decoded as such. */
  method SecondProgramUncounted(feePayer: (Pubkey, Signature), program: Pubkey, account: Pubkey)
    returns (tx: VersionedTransaction)
    ensures |tx.message.instructions| == 2 && |tx.message.instructions[0].accounts| == 1
    ensures var index := tx.message.instructions[0].accounts[0];
      index < |tx.message.accountKeys| && Decoded(tx.message, index) != AccountMeta(account, false, false)
  {
    var builder := new SanitizedTransactionBuilder();
    var metas := [AccountMeta(account, false, false)];
    builder.CreateInstruction(program, metas, map[], []);
    builder.CreateInstruction(program, [], map[], []);
    ghost var d, items := builder.Gathered(), builder.instructions;
    AddAllKeys(Leftover([]), metas, map[]);
    assert KeysOf(metas, Readonly) == [account] && KeysOf(metas, Writable) == [];
    assert KeysOf(metas, SignerWritable) == [] && KeysOf(metas, SignerReadonly) == [] && Firsts([]) == [];
    tx := builder.Build(feePayer);
    AccountsExactly(tx, feePayer, d, 0, items, 0, 0);
  }
}
