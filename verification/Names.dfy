// Object names: a prefix, a dash and the decimal run timestamp. Names are kept structured; Text is
// what the API server sees, and within a kind it loses nothing (TextInjective).
module Names {

  datatype CsiType = AzureFile | AzureDisk | AzureBlob | OtherCsi(text: string)

  // `checker` is the lower-cased checker name.
  datatype Name =
    | PodName(checker: string, ts: nat)
    | PoolName(checker: string, ts: nat)
    | MapName(checker: string, ts: nat)
    | ClaimName(csi: CsiType, ts: nat)
    | ClassName(ts: nat)
    | Given(text: string)

  predicate Generated(n: Name)
  {
    !n.Given? && (n.ClaimName? ==> !n.csi.OtherCsi?)
  }

  function Prefix(n: Name): string
    requires Generated(n)
  {
    match n
    case PodName(checker, _) => checker + "-synthetic"
    case PoolName(checker, _) => checker + "-nodepool"
    case MapName(checker, _) => checker + "-empty-configmap"
    case ClassName(_) => "clusterhealthmonitor-azurefile-sc"
    case ClaimName(csi, _) =>
      match csi
      case AzureFile => "clusterhealthmonitor-azurefile-pvc"
      case AzureDisk => "clusterhealthmonitor-azuredisk-pvc"
      case AzureBlob => "clusterhealthmonitor-azureblob-pvc"
  }

  function Text(n: Name): string
    requires Generated(n)
  {
    Prefix(n) + "-" + Dec(n.ts)
  }

  function Digit(k: nat): (c: char)
    requires k < 10
    ensures IsDigit(c) && DigitValue(c) == k
  {
    ('0' as nat + k) as char
  }

  // Decimal text of a natural number, as the %d verb prints it.
  function Dec(n: nat): string
  {
    if n < 10 then [Digit(n)] else Dec(n / 10) + [Digit(n % 10)]
  }

  predicate IsDigit(c: char) { '0' <= c <= '9' }

  function DigitValue(c: char): nat
  {
    if IsDigit(c) then c as nat - '0' as nat else 0
  }

  function Undec(s: string): nat
  {
    if s == [] then 0 else 10 * Undec(s[..|s| - 1]) + DigitValue(s[|s| - 1])
  }

  // What follows the last dash.
  function AfterDash(s: string): string
  {
    if s == [] || s[|s| - 1] == '-' then [] else AfterDash(s[..|s| - 1]) + [s[|s| - 1]]
  }

  // The run timestamp a generated name ends in.
  function StampOf(name: string): nat
  {
    Undec(AfterDash(name))
  }

  // strings.ToLower on ASCII letters.
  function Lower(s: string): (r: string)
    ensures |r| == |s|
  {
    seq(|s|, i requires 0 <= i < |s| => if 'A' <= s[i] <= 'Z' then (s[i] as int + 32) as char else s[i])
  }

  lemma {:induction false} DecIsDigits(n: nat)
    ensures Dec(n) != [] && forall i | 0 <= i < |Dec(n)| :: IsDigit(Dec(n)[i])
  {
    if n >= 10 {
      DecIsDigits(n / 10);
    }
  }

  lemma {:induction false} UndecDec(n: nat)
    ensures Undec(Dec(n)) == n
  {
    if n >= 10 {
      UndecDec(n / 10);
      assert Dec(n)[..|Dec(n)| - 1] == Dec(n / 10);
    } else {
      assert Dec(n)[..0] == [];
    }
  }

  lemma AfterDashSnoc(s: string, c: char)
    ensures AfterDash(s + [c]) == if c == '-' then [] else AfterDash(s) + [c]
  {
  }

  lemma {:induction false} AfterDashOf(s: string, rest: string)
    requires forall i | 0 <= i < |rest| :: rest[i] != '-'
    ensures AfterDash(s + ['-'] + rest) == rest
  {
    if rest == [] {
      AfterDashSnoc(s, '-');
      assert s + ['-'] + [] == s + ['-'];
    } else {
      var init, last := rest[..|rest| - 1], rest[|rest| - 1];
      AfterDashOf(s, init);
      AfterDashSnoc(s + ['-'] + init, last);
      assert rest == init + [last];
      assert s + ['-'] + rest == s + ['-'] + init + [last];
    }
  }

  lemma StampOfName(prefix: string, ts: nat)
    ensures StampOf(prefix + "-" + Dec(ts)) == ts
  {
    DecIsDigits(ts);
    assert "-" == ['-'];
    AfterDashOf(prefix, Dec(ts));
    UndecDec(ts);
  }

  // A generated name determines both the prefix and the timestamp.
  lemma StampedNamesInjective(p: string, t: nat, q: string, u: nat)
    ensures p + "-" + Dec(t) == q + "-" + Dec(u) <==> p == q && t == u
  {
    StampOfName(p, t);
    StampOfName(q, u);
    if p + "-" + Dec(t) == q + "-" + Dec(u) {
      var a, b := p + "-" + Dec(t), q + "-" + Dec(u);
      assert a[..|p|] == p && b[..|q|] == q;
    }
  }

  // The prefix the checker lower-cases as a whole is the one Text uses.
  lemma PodNamePrefixLowered(name: string, ts: nat)
    ensures Lower(name + "-synthetic-") + Dec(ts) == Text(PodName(Lower(name), ts))
  {
  }

  ghost predicate SameKind(m: Name, n: Name)
  {
    || (m.PodName? && n.PodName?) || (m.PoolName? && n.PoolName?) || (m.MapName? && n.MapName?)
    || (m.ClaimName? && n.ClaimName?) || (m.ClassName? && n.ClassName?)
  }

  lemma SameSuffix(a: string, b: string, suffix: string)
    requires a + suffix == b + suffix
    ensures a == b
  {
    assert |a| == |b|;
    assert (a + suffix)[..|a|] == a && (b + suffix)[..|b|] == b;
  }

  lemma ClaimPrefixesDiffer(m: Name, n: Name)
    requires Generated(m) && Generated(n) && m.ClaimName? && n.ClaimName? && m.csi != n.csi
    ensures Prefix(m) != Prefix(n)
  {
  }

  // Two names of one kind print alike exactly when checker (up to case), CSI type and timestamp agree.
  lemma TextInjective(m: Name, n: Name)
    requires Generated(m) && Generated(n) && SameKind(m, n)
    ensures Text(m) == Text(n) <==> m == n
  {
    if Text(m) == Text(n) {
      StampedNamesInjective(Prefix(m), m.ts, Prefix(n), n.ts);
      match m {
        case PodName(_, _) => SameSuffix(m.checker, n.checker, "-synthetic");
        case PoolName(_, _) => SameSuffix(m.checker, n.checker, "-nodepool");
        case MapName(_, _) => SameSuffix(m.checker, n.checker, "-empty-configmap");
        case ClaimName(_, _) => if m.csi != n.csi { ClaimPrefixesDiffer(m, n); }
        case ClassName(_) =>
      }
    }
  }
}
