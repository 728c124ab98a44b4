/**
 * What a validated message commits its signers to: every term except how the funded
 * amount splits into price and domain rent (src/lib/transactions/policy.ts:84-155).
 */
module MessageTerms {
  import opened Basics
  import opened Registry
  import opened Wire
  import opened SponsoredMessage
  import opened Quotes
  import opened Packet
  import Builder

  predicate Below(n: int, width: nat) {
    if width == 0 then n == 0 else n >= 0 && Below(n / 256, width - 1)
  }

  lemma {:induction false} LittleEndianInjective(a: int, b: int, width: nat)
    requires Below(a, width) && Below(b, width) && LittleEndian(a, width) == LittleEndian(b, width)
    ensures a == b
    decreases width
  {
    if width > 0 {
      var s, t := LittleEndian(a, width), LittleEndian(b, width);
      assert s[0] == t[0] && s[1..] == t[1..];
      assert s[1..] == LittleEndian(a / 256, width - 1) && t[1..] == LittleEndian(b / 256, width - 1);
      LittleEndianInjective(a / 256, b / 256, width - 1);
    }
  }

  lemma NativeBelow(n: int)
    requires NativeAmount(n)
    ensures Below(n, 8)
  {
    var a, b, c := n / 0x100, n / 0x1_0000, n / 0x100_0000;
    var d, e, f, g := n / 0x1_0000_0000, n / 0x100_0000_0000, n / 0x1_0000_0000_0000, n / 0x100_0000_0000_0000;
    assert a / 256 == b && b / 256 == c && c / 256 == d && d / 256 == e && e / 256 == f && f / 256 == g && g / 256 == 0;
    assert Below(0, 0) && Below(g, 1) && Below(f, 2) && Below(e, 3) && Below(d, 4) && Below(c, 5) && Below(b, 6) && Below(a, 7);
  }

  lemma TransferInjective(a: int, b: int)
    requires NativeAmount(a) && NativeAmount(b) && TransferData(a) == TransferData(b)
    ensures a == b
  {
    hide LittleEndian, Below;
    assert TransferData(a)[4..] == LittleEndian(a, 8) && TransferData(b)[4..] == LittleEndian(b, 8);
    NativeBelow(a);
    NativeBelow(b);
    LittleEndianInjective(a, b, 8);
  }

  lemma {:induction false} AsciiInjective(a: string, b: string)
    requires (forall i :: 0 <= i < |a| ==> LabelChar(a[i])) && forall i :: 0 <= i < |b| ==> LabelChar(b[i])
    requires Ascii(a) == Ascii(b)
    ensures a == b
  {
    if a != "" && b != "" {
      assert Ascii(a)[0] == Ascii(b)[0] && Ascii(a)[1..] == Ascii(b)[1..];
      assert LabelChar(a[0]) && LabelChar(b[0]);
      AsciiInjective(a[1..], b[1..]);
      assert a == [a[0]] + a[1..] && b == [b[0]] + b[1..];
    }
  }

  // ------------------------------------------------------ indices back to accounts

  lemma {:induction false} AccountsInjective(keys: seq<Key>, a: seq<Key>, b: seq<Key>)
    requires |keys| <= 256 && (forall k <- a :: k in keys) && (forall k <- b :: k in keys)
    requires EncodeAccounts(keys, a) == EncodeAccounts(keys, b)
    ensures a == b
  {
    assert |a| == |EncodeAccounts(keys, a)| == |b|;
    forall i | 0 <= i < |a| ensures a[i] == b[i] {
      assert a[i] in a && b[i] in b;
      assert EncodeAccounts(keys, a)[i] == EncodeAccounts(keys, b)[i];
      assert IndexOf(keys, a[i]) == IndexOf(keys, b[i]);
    }
  }

  lemma RawInjective(keys: seq<Key>, a: Instruction, b: Instruction)
    requires |keys| <= 256 && Indexed(keys, a) && Indexed(keys, b) && RawOf(keys, a) == RawOf(keys, b)
    ensures a == b
  {
    AccountsInjective(keys, a.accounts, b.accounts);
  }

  lemma {:induction false} RawsInjective(keys: seq<Key>, a: seq<Instruction>, b: seq<Instruction>)
    requires AllIndexed(keys, a) && AllIndexed(keys, b) && RawsOf(keys, a) == RawsOf(keys, b)
    ensures a == b
  {
    hide RawOf, Indexed;
    assert |a| == |RawsOf(keys, a)| == |b|;
    if a != [] {
      assert RawsOf(keys, a)[0] == RawOf(keys, a[0]) && RawsOf(keys, b)[0] == RawOf(keys, b[0]);
      RawInjective(keys, a[0], b[0]);
      assert RawsOf(keys, a)[1..] == RawsOf(keys, a[1..]) && RawsOf(keys, b)[1..] == RawsOf(keys, b[1..]);
      RawsInjective(keys, a[1..], b[1..]);
      assert a == [a[0]] + a[1..] && b == [b[0]] + b[1..];
    }
  }

  /** One message, two expected inputs: the same accounts and the same instructions. */
  lemma SameInstructions(p: Policy, message: Bytes, e: Input, f: Input)
    requires Accepts(p, message, e) && Accepts(p, message, f)
    requires Builder.SeparateAddresses(p, e) && Builder.SeparateAddresses(p, f)
    ensures e.blockhash == f.blockhash && Instructions(p, e) == Instructions(p, f)
  {
    hide Admissible, Builder.SeparateAddresses, AccountKeys, Instructions, RawsOf, PrintMessage, CanonicalMessage, Parse;
    ViewParses(p, message, e);
    ViewParses(p, message, f);
    InstructionsIndexed(p, e);
    InstructionsIndexed(p, f);
    RawsInjective(AccountKeys(p, e), Instructions(p, e), Instructions(p, f));
  }

  lemma ViewParses(p: Policy, message: Bytes, e: Input)
    requires Accepts(p, message, e) && Builder.SeparateAddresses(p, e)
    ensures ValidLabel(e.name) && Parse(UnsignedPacket(message)) == Some(BrowserView(p, e))
  {
    hide Parse;
    ViewSpelled(p, e);
    TenDistinct(p, e);
    assert UnsignedPacket(message) == Print(BrowserView(p, e));
    PrintedParsesBack(BrowserView(p, e));
  }

  // ------------------------------------------------------------------------ terms

  /** The funding transfer, the label and the wallet are read off the first four instructions. */
  lemma HeadTerms(p: Policy, e: Input, f: Input)
    requires ValidLabel(e.name) && ValidLabel(f.name) && Instructions(p, e) == Instructions(p, f)
    ensures (e.primaryRent > 0) == (f.primaryRent > 0)
    ensures e.sponsor == f.sponsor && e.attemptPayer == f.attemptPayer && e.feeReceiver == f.feeReceiver
    ensures TransferData(e.registrationPrice + e.domainRent) == TransferData(f.registrationPrice + f.domainRent)
    ensures RegisterIx(p, e).data == RegisterIx(p, f).data && TransferDomainIx(p, e).data == TransferDomainIx(p, f).data
    ensures e.primaryRent > 0 ==> TransferData(e.primaryRent) == TransferData(f.primaryRent)
  {
    hide Instructions, TransferData;
    Builder.InstructionParts(p, e);
    Builder.InstructionParts(p, f);
    var a, b := TransferIx(p, e.sponsor, e.attemptPayer, e.registrationPrice + e.domainRent),
                TransferIx(p, f.sponsor, f.attemptPayer, f.registrationPrice + f.domainRent);
    assert a == b && a.accounts[0] == b.accounts[0] && a.accounts[1] == b.accounts[1];
    assert RegisterIx(p, e).accounts[3] == RegisterIx(p, f).accounts[3];
    if e.primaryRent > 0 {
      assert TransferIx(p, e.sponsor, e.user, e.primaryRent) == TransferIx(p, f.sponsor, f.user, f.primaryRent);
    }
  }

  lemma SameName(p: Policy, e: Input, f: Input)
    requires ValidLabel(e.name) && ValidLabel(f.name) && RegisterIx(p, e).data == RegisterIx(p, f).data
    ensures e.name == f.name
  {
    assert RegisterIx(p, e).data[12..] == Ascii(e.name) && RegisterIx(p, f).data[12..] == Ascii(f.name);
    AsciiInjective(e.name, f.name);
  }

  lemma SameUser(p: Policy, e: Input, f: Input)
    requires TransferDomainIx(p, e).data == TransferDomainIx(p, f).data
    ensures e.user == f.user
  {
    assert TransferDomainIx(p, e).data[8..] == e.user && TransferDomainIx(p, f).data[8..] == f.user;
  }

  lemma AdmissibleAmounts(p: Policy, e: Input)
    requires Admissible(p, e)
    ensures ValidLabel(e.name) && NativeAmount(e.registrationPrice + e.domainRent) && NativeAmount(e.primaryRent)
  {
  }

  /** Equal up to the split of the funded amount. */
  predicate SameUpToSplit(e: Input, f: Input) {
    && f == e.(registrationPrice := f.registrationPrice, domainRent := f.domainRent)
    && e.registrationPrice + e.domainRent == f.registrationPrice + f.domainRent
  }

  /**
   * A message is accepted for two expected inputs exactly when they agree on every term
   * but the split of price and domain rent: the one thing it leaves open.
   */
  lemma MessagePinsTerms(p: Policy, message: Bytes, e: Input, f: Input)
    requires Accepts(p, message, e) && Admissible(p, f)
    requires Builder.SeparateAddresses(p, e) && Builder.SeparateAddresses(p, f)
    ensures Accepts(p, message, f) <==> SameUpToSplit(e, f)
  {
    hide Admissible, Builder.SeparateAddresses, CanonicalMessage, RegisterIx, TransferDomainIx, TransferData;
    AdmissibleAmounts(p, e);
    AdmissibleAmounts(p, f);
    if Accepts(p, message, f) {
      SameInstructions(p, message, e, f);
      HeadTerms(p, e, f);
      SameName(p, e, f);
      SameUser(p, e, f);
      TransferInjective(e.registrationPrice + e.domainRent, f.registrationPrice + f.domainRent);
      if e.primaryRent > 0 { TransferInjective(e.primaryRent, f.primaryRent); }
    }
    if SameUpToSplit(e, f) {
      SplitIsFree(p, e, f);
    }
  }

  /** The other split exists: one unit moved from the rent to the price, under the very same bytes. */
  lemma SplitIsOpen(p: Policy, message: Bytes, e: Input)
    requires Accepts(p, message, e) && e.domainRent > 1
    ensures var f := e.(registrationPrice := e.registrationPrice + 1, domainRent := e.domainRent - 1);
            f != e && SameUpToSplit(e, f) && Accepts(p, message, f)
  {
    hide CanonicalMessage;
    var f := e.(registrationPrice := e.registrationPrice + 1, domainRent := e.domainRent - 1);
    assert Actors(f) == Actors(e) && Protected(p, f) == Protected(p, e);
    SplitIsFree(p, e, f);
  }

  lemma SplitIsFree(p: Policy, e: Input, f: Input)
    requires ValidLabel(e.name) && SameUpToSplit(e, f)
    ensures CanonicalMessage(p, e) == CanonicalMessage(p, f)
  {
    hide EncodeInstructions, EncodeKeys, EncodeLength, TransferData, SortByRank;
    InstructionsIndexed(p, e);
    InstructionsIndexed(p, f);
    assert AccountKeys(p, e) == AccountKeys(p, f);
    assert Instructions(p, e) == Instructions(p, f);
  }
}
