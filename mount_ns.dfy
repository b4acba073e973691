/** Reading and comparing mount-namespace identifiers (`getMountNs` and
    `SwitchMountNs` in pkg/mnt_ns_linux.go). The text of the
    `/proc/<pid>/ns/mnt` link, or the failure to read it, is an input. */
module MountNs {
  import opened GoLib
  import opened NsEntry

  /** The outcome of os.Readlink on a namespace link. */
  datatype LinkRead = ReadFailed | ReadOk(text: string)

  /** The outcome of getMountNs: a namespace number (`0` when the link could
      not be read), or the process terminating through log.Fatalf. */
  datatype Lookup = Value(ns: int) | Fatal

  const NsPrefix: string := "mnt:["
  const NsSuffix: string := "]"

  /** The text the kernel gives a mount-namespace link. */
  function LinkText(ns: nat): string {
    NsPrefix + Decimal(ns) + NsSuffix
  }

  /** getMountNs: the namespace number in a link text shaped `mnt:[<n>]`. */
  function GetMountNs(link: LinkRead): (r: Lookup)
    // an unreadable or empty link is the sentinel 0, whatever else holds
    ensures link.ReadFailed? ==> r == Value(0)
    ensures link == ReadOk("") ==> r == Value(0)
    // a returned number always fits a Go int
    ensures r.Value? ==> MinInt <= r.ns <= MaxInt
    // otherwise the process terminates exactly when Atoi refuses what is
    // left after trimming
    ensures link.ReadOk? && link.text != "" ==>
              (r.Fatal? <==> !Atoi(TrimSuffix(TrimPrefix(link.text, NsPrefix), NsSuffix)).Parsed?)
    // and a returned number is Atoi's value of that trimmed text
    ensures link.ReadOk? && link.text != "" && r.Value? ==>
              Atoi(TrimSuffix(TrimPrefix(link.text, NsPrefix), NsSuffix)) == Parsed(r.ns)
  {
    match link
    case ReadFailed => Value(0)
    case ReadOk(text) =>
      if text == "" then Value(0)
      else
        var nss := TrimSuffix(TrimPrefix(text, NsPrefix), NsSuffix);
        match Atoi(nss)
        case Parsed(n) => Value(n)
        case _ => Fatal
  }

  /** What getMountNs makes of the digits Atoi sees. */
  function FromAtoi(a: AtoiResult): Lookup {
    if a.Parsed? then Value(a.n) else Fatal
  }

  /** Text wrapped in `mnt:[` and `]` loses exactly that wrapping. */
  lemma ParseWrapped(m: string)
    ensures GetMountNs(ReadOk(NsPrefix + m + NsSuffix)) == FromAtoi(Atoi(m))
  {
    var t := NsPrefix + m + NsSuffix;
    assert NsPrefix <= t;
    assert TrimPrefix(t, NsPrefix) == m + NsSuffix;
    assert HasSuffix(m + NsSuffix, NsSuffix);
  }

  /** Text with neither the prefix nor the suffix is parsed as it is. */
  lemma ParseBare(t: string)
    requires t != "" && !(NsPrefix <= t) && !HasSuffix(t, NsSuffix)
    ensures GetMountNs(ReadOk(t)) == FromAtoi(Atoi(t))
  {
  }

  /** Text with the prefix but no suffix loses only the prefix. */
  lemma ParsePrefixOnly(m: string)
    requires !HasSuffix(m, NsSuffix)
    ensures GetMountNs(ReadOk(NsPrefix + m)) == FromAtoi(Atoi(m))
  {
    assert NsPrefix <= NsPrefix + m;
    assert TrimPrefix(NsPrefix + m, NsPrefix) == m;
  }

  /** Text with the suffix but no prefix loses only the suffix. */
  lemma ParseSuffixOnly(m: string)
    requires !(NsPrefix <= m + NsSuffix)
    ensures GetMountNs(ReadOk(m + NsSuffix)) == FromAtoi(Atoi(m))
  {
    assert HasSuffix(m + NsSuffix, NsSuffix);
    assert (m + NsSuffix)[..|m|] == m;
  }

  /** Round trip: the kernel's link text for any namespace number that fits
      a Go int parses back to that number. */
  lemma RoundTrip(ns: nat)
    requires ns <= MaxInt
    ensures GetMountNs(ReadOk(LinkText(ns))) == Value(ns)
  {
    ParseWrapped(Decimal(ns));
    AtoiDecimal(ns);
  }

  /** A namespace number too large for a Go int terminates the process. */
  lemma RoundTripOverflow(ns: nat)
    requires MaxInt < ns
    ensures GetMountNs(ReadOk(LinkText(ns))) == Fatal
  {
    ParseWrapped(Decimal(ns));
    AtoiDecimal(ns);
  }

  /** Inner text that is not an integer terminates the process. */
  lemma WrappedNonDigitFatal(m: string, i: nat)
    requires i < |m| && !IsDigit(m[i]) && (i > 0 || !HasSign(m))
    ensures GetMountNs(ReadOk(NsPrefix + m + NsSuffix)) == Fatal
  {
    ParseWrapped(m);
    AtoiRejectsNonDigit(m, i);
  }

  /** Text with neither the prefix nor the suffix still parses. */
  lemma ParseBareExample()
    ensures GetMountNs(ReadOk("123")) == Value(123)
  {
    assert Decimal(123) == "123";
    AtoiDecimal(123);
    assert !(NsPrefix <= "123");
    assert !HasSuffix("123", NsSuffix);
    ParseBare("123");
  }

  /** The prefix comes off even when the suffix is missing. */
  lemma ParsePrefixOnlyExample()
    ensures GetMountNs(ReadOk("mnt:[42")) == Value(42)
  {
    assert Decimal(42) == "42";
    AtoiDecimal(42);
    assert NsPrefix <= "mnt:[42";
    assert TrimPrefix("mnt:[42", NsPrefix) == "42";
    assert !HasSuffix("42", NsSuffix);
  }

  /** Inner text that is not a number terminates the process. */
  lemma ParseMalformedExamples()
    ensures GetMountNs(ReadOk("mnt:[abc]")) == Fatal
    ensures GetMountNs(ReadOk("mnt:[]")) == Fatal
  {
    assert "mnt:[abc]" == NsPrefix + "abc" + NsSuffix;
    WrappedNonDigitFatal("abc", 0);
    assert "mnt:[]" == NsPrefix + "" + NsSuffix;
    ParseWrapped("");
  }

  /** Prefix and suffix each come off at most once. */
  lemma ParseTrimsOnceExamples()
    ensures GetMountNs(ReadOk("mnt:[7]]")) == Fatal
    ensures GetMountNs(ReadOk("mnt:[mnt:[7]")) == Fatal
  {
    assert "mnt:[7]]" == NsPrefix + "7]" + NsSuffix;
    WrappedNonDigitFatal("7]", 1);
    assert "mnt:[mnt:[7]" == NsPrefix + "mnt:[7" + NsSuffix;
    WrappedNonDigitFatal("mnt:[7", 0);
  }

  /** Atoi's sign rule carries over: a signed number is returned as such. */
  lemma ParseSignedExample()
    ensures GetMountNs(ReadOk("mnt:[-5]")) == Value(-5)
  {
    assert "mnt:[-5]" == NsPrefix + Itoa(-5) + NsSuffix;
    ParseWrapped(Itoa(-5));
    AtoiItoa(-5);
  }

  /** A `+` sign is dropped, and a sign with no digits is Fatal. */
  lemma ParseSignExamples()
    ensures GetMountNs(ReadOk("mnt:[+5]")) == Value(5)
    ensures GetMountNs(ReadOk("mnt:[-]")) == Fatal
    ensures GetMountNs(ReadOk("mnt:[+]")) == Fatal
  {
    AtoiSignExamples();
    assert "mnt:[+5]" == NsPrefix + "+5" + NsSuffix;
    ParseWrapped("+5");
    assert "mnt:[-]" == NsPrefix + "-" + NsSuffix;
    ParseWrapped("-");
    assert "mnt:[+]" == NsPrefix + "+" + NsSuffix;
    ParseWrapped("+");
  }

  /** A wrapped decimal integer outside the `int` range is Fatal, whatever
      its sign or leading zeros. */
  lemma WrappedOutOfRangeFatal(m: string)
    requires ValidDecimal(m) && !(MinInt <= SignedValue(m) <= MaxInt)
    ensures GetMountNs(ReadOk(NsPrefix + m + NsSuffix)) == Fatal
  {
    ParseWrapped(m);
    AtoiCharacterised(m);
  }

  /** A negative number below the range, such as
      `mnt:[-9223372036854775809]`, is Fatal. */
  lemma NegativeOverflowFatal(n: nat)
    requires -(n as int) < MinInt
    ensures GetMountNs(ReadOk(NsPrefix + "-" + Decimal(n) + NsSuffix)) == Fatal
  {
    var digits := Decimal(n);
    var negative := "-" + digits;
    assert negative[1..] == digits;
    DecimalValue(n);
    assert ValidDecimal(negative) && SignedValue(negative) == -(n as int);
    assert NsPrefix + "-" + digits + NsSuffix == NsPrefix + negative + NsSuffix;
    WrappedOutOfRangeFatal(negative);
  }

  /** A number above the range written with a leading zero, such as
      `mnt:[09223372036854775808]`, is Fatal. */
  lemma PaddedOverflowFatal(n: nat)
    requires MaxInt < n
    ensures GetMountNs(ReadOk(NsPrefix + "0" + Decimal(n) + NsSuffix)) == Fatal
  {
    var digits := Decimal(n);
    var padded := "0" + digits;
    assert padded[0] == '0' && padded[1..] == digits;
    DecimalValue(n);
    LeadingZeroValue(digits);
    assert ValidDecimal(padded) && SignedValue(padded) == n;
    assert NsPrefix + "0" + digits + NsSuffix == NsPrefix + padded + NsSuffix;
    WrappedOutOfRangeFatal(padded);
  }

  /** What SwitchMountNs does after its two lookups. */
  datatype Decision =
    | Abort  // a lookup terminated the process
    | Stay   // the identifiers are equal: no entry
    | Enter  // the identifiers differ: enter the target's namespace

  /** The comparison in SwitchMountNs: the caller's own link first, then the
      target's. */
  function SwitchDecision(selfLink: LinkRead, targetLink: LinkRead): (d: Decision)
    // the same link text never causes an entry
    ensures selfLink == targetLink ==> d != Enter
    // two sentinels compare equal
    ensures selfLink.ReadFailed? && targetLink.ReadFailed? ==> d == Stay
    // the caller's own lookup comes first: if it terminates, the target's
    // text does not matter
    ensures GetMountNs(selfLink).Fatal? ==> d == Abort
    ensures GetMountNs(targetLink).Fatal? ==> d == Abort
    // an entry happens only between two determined, different identifiers
    ensures d == Enter ==>
              GetMountNs(selfLink).Value? && GetMountNs(targetLink).Value? &&
              GetMountNs(selfLink).ns != GetMountNs(targetLink).ns
  {
    var myns := GetMountNs(selfLink);
    if myns.Fatal? then Abort
    else
      var pidns := GetMountNs(targetLink);
      if pidns.Fatal? then Abort
      else if myns.ns != pidns.ns then Enter
      else Stay
  }

  /** Entry happens if and only if both identifiers are determined and they
      differ. */
  lemma EnterIffDiffer(selfLink: LinkRead, targetLink: LinkRead)
    requires GetMountNs(selfLink).Value? && GetMountNs(targetLink).Value?
    ensures SwitchDecision(selfLink, targetLink) == Enter <==>
              GetMountNs(selfLink).ns != GetMountNs(targetLink).ns
    ensures SwitchDecision(selfLink, targetLink) == Stay <==>
              GetMountNs(selfLink).ns == GetMountNs(targetLink).ns
  {
  }

  /** Two processes whose links name different namespaces: entry. */
  lemma DistinctNamespacesEnter(mine: nat, theirs: nat)
    requires mine <= MaxInt && theirs <= MaxInt && mine != theirs
    ensures SwitchDecision(ReadOk(LinkText(mine)), ReadOk(LinkText(theirs))) == Enter
  {
    RoundTrip(mine);
    RoundTrip(theirs);
  }

  /** Two processes whose links name the same namespace: no entry. */
  lemma SameNamespaceStays(ns: nat)
    requires ns <= MaxInt
    ensures SwitchDecision(ReadOk(LinkText(ns)), ReadOk(LinkText(ns))) == Stay
  {
    RoundTrip(ns);
  }

  /** The sentinel cannot be told from a real namespace 0, while an
      unreadable own link against any other readable one causes an entry. */
  lemma SentinelAgainstReadable(theirs: nat)
    requires theirs <= MaxInt
    ensures SwitchDecision(ReadFailed, ReadOk(LinkText(theirs))) == (if theirs == 0 then Stay else Enter)
    ensures SwitchDecision(ReadOk(LinkText(theirs)), ReadFailed) == (if theirs == 0 then Stay else Enter)
  {
    RoundTrip(theirs);
  }

  /** SwitchMountNs(pid): enter the namespace of `pid` when it differs from
      the caller's own. It returns nothing: the entry's error is dropped. */
  method SwitchMountNs(c: Caller, pid: int, selfLink: LinkRead, targetLink: LinkRead, kernel: Oracle)
    requires c.Valid() && !c.exited
    modifies c
    ensures c.Valid()
    ensures c.exited <==> SwitchDecision(selfLink, targetLink) == Abort
    ensures SwitchDecision(selfLink, targetLink) != Enter ==>
              c.calls == old(c.calls) && c.threadLocked == old(c.threadLocked) &&
              c.fsUnshared == old(c.fsUnshared) && c.joined == old(c.joined)
    ensures SwitchDecision(selfLink, targetLink) == Enter ==>
              c.calls == old(c.calls) + Entry(pid, kernel).calls && c.threadLocked &&
              c.fsUnshared == (old(c.fsUnshared) || kernel.unshareOk) &&
              c.joined == (old(c.joined) || Entry(pid, kernel).err == Ok)
  {
    var myns := GetMountNs(selfLink);
    if myns.Fatal? {
      c.Exit();
      return;
    }
    var pidns := GetMountNs(targetLink);
    if pidns.Fatal? {
      c.Exit();
      return;
    }
    if myns.ns != pidns.ns {
      var _ := c.Setns(pid, kernel);
    }
  }

  /** A host process (namespace 4026531840) switching to a containerised
      target (namespace 4026532512) makes exactly one entry, for the target's
      pid, from a freshly started goroutine. */
  method HostToContainer(target: int, kernel: Oracle) returns (c: Caller)
    ensures fresh(c) && c.Valid() && !c.exited && c.threadLocked
    ensures c.calls == Entry(target, kernel).calls
    ensures OpenNsFile(target) in c.calls <==> kernel.unshareOk
    ensures c.joined <==> kernel.unshareOk && kernel.openOk && kernel.setnsOk
  {
    c := new Caller();
    var host := ReadOk(LinkText(4026531840));
    var container := ReadOk(LinkText(4026532512));
    DistinctNamespacesEnter(4026531840, 4026532512);
    SwitchMountNs(c, target, host, container, kernel);
  }
}
