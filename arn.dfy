/** `getARNFromIdentity`: normalising an STS assumed-role ARN to the IAM role ARN.

    The source runs the regular expression
      arn:aws:sts:(?<regionName>[^:]*):(?<accountId>\d{12}):assumed-role\/(?<roleName>[A-z0-9\-]+?)\/(?<user>[^:]*)$
    with `exec`, without a `^` anchor and without flags.  `exec` tries the start
    positions from left to right and keeps the first one at which the pattern
    matches.  `$` then means the end of the input, `\d` is an ASCII digit, and
    the class `[A-z]` spans the code points 'A' (65) to 'z' (122), so it also
    admits `[`, `\`, `]`, `^`, `_` and the backquote.

    `MatchAt` is the matcher anchored at one start position and `Exec` is the
    left-to-right search. `Shape` is the independent, declarative reading of the
    pattern, and the lemmas below prove that the two agree. */
module Arn {
  import opened Wrappers

  const StsPrefix: string := "arn:aws:sts:"
  const AssumedRole: string := ":assumed-role/"

  predicate IsDigit(c: char) { '0' <= c <= '9' }

  /** The role-name class `[A-z0-9\-]`. */
  predicate IsRoleChar(c: char) { ('A' <= c <= 'z') || IsDigit(c) || c == '-' }

  predicate AllDigits(s: string) { forall i :: 0 <= i < |s| ==> IsDigit(s[i]) }

  predicate AllRoleChars(s: string) { forall i :: 0 <= i < |s| ==> IsRoleChar(s[i]) }

  /** The named groups of a successful match (the session is group `user`). */
  datatype Captures = Captures(region: string, account: string, role: string, session: string)

  /** The text matched from the role name on: `role/session`. */
  function RoleTail(c: Captures): string { c.role + "/" + c.session }

  /** The text matched from the account on. */
  function AccountTail(c: Captures): string { c.account + AssumedRole + RoleTail(c) }

  /** The text matched from the region on. */
  function RegionTail(c: Captures): string { c.region + ":" + AccountTail(c) }

  /** The whole text of a match with these groups. */
  function Assemble(c: Captures): string { StsPrefix + RegionTail(c) }

  /** `t` is exactly one match of the pattern, read off the pattern piece by
      piece: the literal prefix, a region without `:`, twelve digits, the
      literal `:assumed-role/`, a non-empty role name over `[A-z0-9\-]`, a `/`,
      and a session without `:` that runs to the end. */
  ghost predicate Shape(t: string, c: Captures) {
    && t == Assemble(c)
    && ':' !in c.region
    && |c.account| == 12 && AllDigits(c.account)
    && |c.role| > 0 && AllRoleChars(c.role)
    && ':' !in c.session
  }

  /** The IAM role ARN the source builds from the captured groups. */
  function RoleArn(c: Captures): string {
    "arn:aws:iam:" + c.region + ":" + c.account + ":role/" + c.role
  }

  /** The index of the first `c` in `s`, or `|s|` when there is none. */
  function IndexOf(s: string, c: char): (r: nat)
    ensures r <= |s|
    ensures r < |s| ==> s[r] == c
    ensures c !in s[..r]
  {
    if s == [] then 0
    else if s[0] == c then 0
    else
      var k := IndexOf(s[1..], c);
      assert s[..k + 1] == [s[0]] + s[1..][..k];
      k + 1
  }

  /** The length of the longest prefix of `s` made of role-name characters. */
  function RoleSpan(s: string): (r: nat)
    ensures r <= |s|
    ensures AllRoleChars(s[..r])
    ensures r < |s| ==> !IsRoleChar(s[r])
  {
    if s == [] || !IsRoleChar(s[0]) then 0
    else
      var k := RoleSpan(s[1..]);
      assert s[..k + 1] == [s[0]] + s[1..][..k];
      k + 1
  }

  /** The pattern matched at the very start of `t`.  Every quantifier in the
      pattern has a single way to succeed: `[^:]*` must stop at the first `:`,
      and the lazy `[A-z0-9\-]+?` must stop at the first `/` because `/` is not
      in its class.  The matcher reads the pattern in four stages. */
  function MatchAt(t: string): Option<Captures> {
    if |t| < 12 || t[..12] != StsPrefix then None
    else MatchRegion(t[12..])
  }

  /** The region `[^:]*` and the `:` after it. */
  function MatchRegion(rest: string): Option<Captures> {
    var r := IndexOf(rest, ':');
    if r == |rest| then None
    else MatchAccount(rest[..r], rest[r + 1..])
  }

  /** Twelve digits and the literal `:assumed-role/`. */
  function MatchAccount(region: string, after: string): Option<Captures> {
    if |after| < 26 || !AllDigits(after[..12]) || after[12..26] != AssumedRole then None
    else MatchRole(region, after[..12], after[26..])
  }

  /** The role name up to the first `/`, and a session without `:` up to the
      end. */
  function MatchRole(region: string, account: string, tail: string): Option<Captures> {
    var n := RoleSpan(tail);
    if n == 0 || n == |tail| || tail[n] != '/' then None
    else
      var session := tail[n + 1..];
      if ':' in session then None
      else Some(Captures(region, account, tail[..n], session))
  }

  /** `regex.exec(s)`: the first start position, from `from` on, where the pattern matches. */
  function Exec(s: string, from: nat): Option<Captures>
    decreases |s| - from
  {
    if from > |s| then None
    else match MatchAt(s[from..])
      case Some(c) => Some(c)
      case None => Exec(s, from + 1)
  }

  /** `getARNFromIdentity`: null for a missing identity or a string the pattern
      does not match, otherwise the base IAM role ARN. */
  function GetArnFromIdentity(identityArn: Option<string>): Option<string> {
    match identityArn
    case None => None
    case Some(s) =>
      match Exec(s, 0)
      case None => None
      case Some(c) => Some(RoleArn(c))
  }

  lemma Split3(a: string, b: string, c: string)
    ensures (a + b + c)[..|a|] == a
    ensures (a + b + c)[|a|..|a| + |b|] == b
    ensures (a + b + c)[|a| + |b|..] == c
  {
  }

  lemma Join3(s: string, a: nat, b: nat)
    requires a <= b <= |s|
    ensures s == s[..a] + s[a..b] + s[b..]
  {
  }

  lemma IndexOfExact(s: string, c: char, n: nat)
    requires n < |s| && s[n] == c && c !in s[..n]
    ensures IndexOf(s, c) == n
  {
  }

  lemma RoleSpanExact(s: string, n: nat)
    requires n < |s| && AllRoleChars(s[..n]) && !IsRoleChar(s[n])
    ensures RoleSpan(s) == n
  {
  }

  lemma NoColonInRoleChars(s: string)
    requires AllRoleChars(s)
    ensures ':' !in s
  {
    forall k | 0 <= k < |s|
      ensures s[k] != ':'
    {
      assert IsRoleChar(s[k]);
    }
  }

  lemma NoColonInDigits(s: string)
    requires AllDigits(s)
    ensures ':' !in s
  {
    forall k | 0 <= k < |s|
      ensures s[k] != ':'
    {
      assert IsDigit(s[k]);
    }
  }

  lemma MatchRoleSound(region: string, account: string, tail: string)
    requires MatchRole(region, account, tail).Some?
    ensures var c := MatchRole(region, account, tail).value;
            && c.region == region && c.account == account && tail == RoleTail(c)
            && |c.role| > 0 && AllRoleChars(c.role) && ':' !in c.session
  {
    var n := RoleSpan(tail);
    Join3(tail, n, n + 1);
    assert tail[n..n + 1] == "/";
  }

  lemma MatchAccountSound(region: string, after: string)
    requires MatchAccount(region, after).Some?
    ensures var c := MatchAccount(region, after).value;
            && c.region == region && after == AccountTail(c)
            && |c.account| == 12 && AllDigits(c.account)
            && |c.role| > 0 && AllRoleChars(c.role) && ':' !in c.session
  {
    MatchRoleSound(region, after[..12], after[26..]);
    Join3(after, 12, 26);
  }

  lemma MatchRegionSound(rest: string)
    requires MatchRegion(rest).Some?
    ensures var c := MatchRegion(rest).value;
            && rest == RegionTail(c) && ':' !in c.region
            && |c.account| == 12 && AllDigits(c.account)
            && |c.role| > 0 && AllRoleChars(c.role) && ':' !in c.session
  {
    var r := IndexOf(rest, ':');
    MatchAccountSound(rest[..r], rest[r + 1..]);
    Join3(rest, r, r + 1);
    assert rest[r..r + 1] == ":";
  }

  /** What the anchored matcher accepts has the shape of the pattern. */
  lemma MatchAtSound(t: string)
    requires MatchAt(t).Some?
    ensures Shape(t, MatchAt(t).value)
  {
    MatchRegionSound(t[12..]);
    assert t == t[..12] + t[12..];
  }

  lemma MatchRoleComplete(c: Captures)
    requires |c.role| > 0 && AllRoleChars(c.role) && ':' !in c.session
    ensures MatchRole(c.region, c.account, RoleTail(c)) == Some(c)
  {
    Split3(c.role, "/", c.session);
    RoleSpanExact(RoleTail(c), |c.role|);
  }

  lemma MatchAccountComplete(c: Captures)
    requires |c.account| == 12 && AllDigits(c.account)
    requires |c.role| > 0 && AllRoleChars(c.role) && ':' !in c.session
    ensures MatchAccount(c.region, AccountTail(c)) == Some(c)
  {
    var after := AccountTail(c);
    Split3(c.account, AssumedRole, RoleTail(c));
    assert after[..12] == c.account && after[12..26] == AssumedRole && after[26..] == RoleTail(c);
    MatchRoleComplete(c);
  }

  lemma MatchRegionComplete(c: Captures)
    requires ':' !in c.region && |c.account| == 12 && AllDigits(c.account)
    requires |c.role| > 0 && AllRoleChars(c.role) && ':' !in c.session
    ensures MatchRegion(RegionTail(c)) == Some(c)
  {
    var rest := RegionTail(c);
    Split3(c.region, ":", AccountTail(c));
    IndexOfExact(rest, ':', |c.region|);
    assert rest[..|c.region|] == c.region && rest[|c.region| + 1..] == AccountTail(c);
    MatchAccountComplete(c);
  }

  /** A string of the pattern's shape is accepted by the anchored matcher, with
      exactly the groups it was built from. */
  lemma MatchAtComplete(t: string, c: Captures)
    requires Shape(t, c)
    ensures MatchAt(t) == Some(c)
  {
    Split3(StsPrefix, [], RegionTail(c));
    assert t[..12] == StsPrefix && t[12..] == RegionTail(c);
    MatchRegionComplete(c);
  }

  /** The colons of a match at position `i` of `s`: the last of `arn:aws:sts:`,
      none in the region, the one opening `:assumed-role/`, and none after it. */
  lemma ShapeColons(s: string, i: nat, c: Captures)
    requires i <= |s| && Shape(s[i..], c)
    ensures i + 25 + |c.region| < |s|
    ensures s[i + 11] == ':' && s[i + 25 + |c.region|] == ':'
    ensures forall k :: i + 12 <= k < i + 12 + |c.region| ==> s[k] != ':'
    ensures forall k :: i + 25 + |c.region| < k < |s| ==> s[k] != ':'
  {
    var t := s[i..];
    var r := |c.region|;
    NoColonInDigits(c.account);
    NoColonInRoleChars(c.role);
    assert ':' !in "assumed-role/";
    var late := "assumed-role/" + RoleTail(c);
    assert ':' !in late;
    assert AssumedRole == ":" + "assumed-role/";
    assert t == StsPrefix + c.region + ":" + c.account + ":" + late;
    assert t[11] == ':' && t[25 + r] == ':';
    assert t[12..12 + r] == c.region;
    assert t[26 + r..] == late;
    forall k | i + 12 <= k < i + 12 + r
      ensures s[k] != ':'
    {
      assert s[k] == t[12..12 + r][k - i - 12];
    }
    forall k | i + 25 + r < k < |s|
      ensures s[k] != ':'
    {
      assert s[k] == t[26 + r..][k - i - 26 - r];
    }
  }

  /** At most one start position matches: the colon that opens
      `:assumed-role/` is the last colon of the input for every match, which
      fixes where the region ends, and a later start would put the colon of its
      own `arn:aws:sts:` inside the earlier match's region.  So the missing `^`
      anchor lets a prefix through but never makes the match ambiguous. */
  lemma MatchStartUnique(s: string, i: nat, j: nat, c: Captures, d: Captures)
    requires i <= j <= |s|
    requires Shape(s[i..], c) && Shape(s[j..], d)
    ensures i == j && c == d
  {
    if i < j {
      ShapeColons(s, i, c);
      ShapeColons(s, j, d);
      assert false;
    }
    MatchAtComplete(s[i..], c);
    MatchAtComplete(s[j..], d);
  }

  /** `Exec` returns the captures of a shaped substring no later than its
      position, and it returns nothing it did not find in `s`. */
  lemma {:induction false} ExecFinds(s: string, from: nat, i: nat, c: Captures)
    requires from <= i <= |s| && Shape(s[i..], c)
    ensures Exec(s, from) == Some(c)
    decreases i - from
  {
    match MatchAt(s[from..])
    case Some(d) =>
      MatchAtSound(s[from..]);
      MatchStartUnique(s, from, i, d, c);
    case None =>
      if from == i {
        MatchAtComplete(s[i..], c);
      } else {
        ExecFinds(s, from + 1, i, c);
      }
  }

  lemma {:induction false} ExecSound(s: string, from: nat)
    requires Exec(s, from).Some?
    ensures exists i :: from <= i <= |s| && Shape(s[i..], Exec(s, from).value)
    decreases |s| - from
  {
    if MatchAt(s[from..]).Some? {
      MatchAtSound(s[from..]);
    } else {
      ExecSound(s, from + 1);
    }
  }

  /** Soundness: a result is always a whole role ARN built from a substring that
      has the pattern's shape and runs to the end of the input, never a partial one. */
  lemma GetArnSound(identityArn: Option<string>)
    requires GetArnFromIdentity(identityArn).Some?
    ensures identityArn.Some?
    ensures exists i, c :: 0 <= i <= |identityArn.value| && Shape(identityArn.value[i..], c)
                        && GetArnFromIdentity(identityArn).value == RoleArn(c)
  {
    var s := identityArn.value;
    ExecSound(s, 0);
    var i :| 0 <= i <= |s| && Shape(s[i..], Exec(s, 0).value);
  }

  /** Completeness: wherever a substring running to the end of the input has the
      pattern's shape, the result is the role ARN of exactly its groups: region
      and account copied verbatim, the role name up to the next `/`. */
  lemma GetArnComplete(s: string, i: nat, c: Captures)
    requires i <= |s| && Shape(s[i..], c)
    ensures GetArnFromIdentity(Some(s)) == Some(RoleArn(c))
  {
    ExecFinds(s, 0, i, c);
  }

  /** Null or undefined input is rejected, and so is every string that has no
      suffix of the pattern's shape. */
  lemma GetArnRejects(identityArn: Option<string>)
    requires identityArn.None? || forall i, c :: 0 <= i <= |identityArn.value| ==> !Shape(identityArn.value[i..], c)
    ensures GetArnFromIdentity(identityArn) == None
  {
    if GetArnFromIdentity(identityArn).Some? {
      GetArnSound(identityArn);
    }
  }
  /** Every match contains a colon: the one ending `arn:`. */
  lemma ShapeColonIn(s: string, i: nat, c: Captures)
    requires i <= |s| && Shape(s[i..], c)
    ensures ':' in s
  {
    assert s[i..][3] == ':';
    assert s[i + 3] == s[i..][3];
  }

  /** A string without any colon, such as a bare user name, is rejected. */
  lemma GetArnRejectsWithoutColon(s: string)
    requires ':' !in s
    ensures GetArnFromIdentity(Some(s)) == None
  {
    forall i, c | 0 <= i <= |s|
      ensures !Shape(s[i..], c)
    {
      if Shape(s[i..], c) {
        ShapeColonIn(s, i, c);
        assert false;
      }
    }
    GetArnRejects(Some(s));
  }

  /** Without a `^` anchor, any text in front of a well-formed assumed-role ARN
      is skipped and the ARN is normalised as if it stood alone. */
  lemma GetArnIgnoresPrefix(junk: string, c: Captures)
    requires Shape(Assemble(c), c)
    ensures GetArnFromIdentity(Some(junk + Assemble(c))) == Some(RoleArn(c))
  {
    var s := junk + Assemble(c);
    assert s[|junk|..] == Assemble(c);
    GetArnComplete(s, |junk|, c);
  }

  /** A whole match is normalised to the role ARN of its groups. */
  lemma GetArnOfMatch(c: Captures)
    requires Shape(Assemble(c), c)
    ensures GetArnFromIdentity(Some(Assemble(c))) == Some(RoleArn(c))
  {
    assert Assemble(c)[0..] == Assemble(c);
    GetArnComplete(Assemble(c), 0, c);
  }

  lemma SessionRoleChars()
    ensures AllRoleChars("this-is-my-role-name")
  {
  }

  lemma SessionAccountDigits()
    ensures AllDigits("123456789012")
  {
  }

  lemma SessionNoColons()
    ensures ':' !in "eu-central-1" && ':' !in "this-is-my-username"
  {
  }

  /** The assumed-role ARN of a session in eu-central-1 is normalised to the
      role ARN of the same region, account and role. */
  lemma GetArnSessionExample()
    ensures var c := Captures("eu-central-1", "123456789012", "this-is-my-role-name", "this-is-my-username");
            GetArnFromIdentity(Some(Assemble(c))) == Some(RoleArn(c))
  {
    var c := Captures("eu-central-1", "123456789012", "this-is-my-role-name", "this-is-my-username");
    SessionRoleChars();
    SessionAccountDigits();
    SessionNoColons();
    GetArnOfMatch(c);
  }

  /** The colons of a match at position `i` that `ShapeColons` leaves out: the
      one closing the region, and none among the twelve digits. */
  lemma ShapeInnerColons(s: string, i: nat, c: Captures)
    requires i <= |s| && Shape(s[i..], c)
    ensures i + 25 + |c.region| < |s|
    ensures s[i + 12 + |c.region|] == ':'
    ensures forall k :: i + 12 + |c.region| < k < i + 25 + |c.region| ==> s[k] != ':'
    ensures s[i..i + 11] == "arn:aws:sts"
    ensures s[i + 13 + |c.region|..i + 25 + |c.region|] == c.account
  {
    var t := s[i..];
    var r := |c.region|;
    NoColonInDigits(c.account);
    assert t == StsPrefix + c.region + ":" + c.account + AssumedRole + RoleTail(c);
    assert t[12 + r] == ':';
    assert t[13 + r..25 + r] == c.account;
    assert t[..11] == "arn:aws:sts";
    forall k | i + 12 + r < k < i + 25 + r
      ensures s[k] != ':'
    {
      assert s[k] == t[13 + r..25 + r][k - i - 13 - r];
    }
    assert s[i..i + 11] == t[..11];
    assert s[i + 13 + r..i + 25 + r] == t[13 + r..25 + r];
  }

  /** Where the last three colons of `x:region:account:tail` are, when only
      `x` may hold other colons. */
  lemma ColonLayout(x: string, region: string, account: string, tail: string)
    requires ':' !in region && ':' !in account && ':' !in tail
    ensures var s := x + ":" + region + ":" + account + ":" + tail;
            var p1 := |x|;
            var p2 := p1 + 1 + |region|;
            var p3 := p2 + 1 + |account|;
            && p3 < |s| && s[p1] == ':' && s[p2] == ':' && s[p3] == ':'
            && (forall k :: p1 < k < p2 ==> s[k] != ':')
            && (forall k :: p2 < k < p3 ==> s[k] != ':')
            && (forall k :: p3 < k < |s| ==> s[k] != ':')
            && s[..p1] == x && s[p2 + 1..p3] == account
  {
    var s := x + ":" + region + ":" + account + ":" + tail;
    var p1 := |x|;
    var p2 := p1 + 1 + |region|;
    var p3 := p2 + 1 + |account|;
    assert s[p1 + 1..p2] == region;
    assert s[p2 + 1..p3] == account;
    assert s[p3 + 1..] == tail;
    forall k | p1 < k < p2 ensures s[k] != ':' {
      assert s[k] == s[p1 + 1..p2][k - p1 - 1];
    }
    forall k | p2 < k < p3 ensures s[k] != ':' {
      assert s[k] == s[p2 + 1..p3][k - p2 - 1];
    }
    forall k | p3 < k < |s| ensures s[k] != ':' {
      assert s[k] == s[p3 + 1..][k - p3 - 1];
    }
  }

  /** A match inside `x:region:account:tail`, where only `x` may hold other
      colons, is framed by the last three colons: `x` ends in `arn:aws:sts` and
      `account` is the twelve digits of the match. */
  lemma MatchFramedByColons(x: string, region: string, account: string, tail: string, i: nat, c: Captures)
    requires ':' !in region && ':' !in account && ':' !in tail
    requires var s := x + ":" + region + ":" + account + ":" + tail;
             i <= |s| && Shape(s[i..], c)
    ensures |x| >= 11 && x[|x| - 11..] == "arn:aws:sts"
    ensures account == c.account && |account| == 12 && AllDigits(account)
  {
    var s := x + ":" + region + ":" + account + ":" + tail;
    ColonLayout(x, region, account, tail);
    var p1 := |x|;
    var p2 := p1 + 1 + |region|;
    var p3 := p2 + 1 + |account|;
    var r := |c.region|;
    ShapeColons(s, i, c);
    ShapeInnerColons(s, i, c);
    assert i + 25 + r == p3;
    assert i + 12 + r == p2;
    assert i + 11 == p1;
    assert x[|x| - 11..] == s[i..i + 11];
  }

  /** An identity whose last three colons do not frame `arn:aws:sts`, a region
      and twelve digits is rejected, wherever the search starts: this is how a
      wrong service or an account that is not twelve digits is turned away. */
  lemma RejectsUnlessStsAccount(x: string, region: string, account: string, tail: string)
    requires ':' !in region && ':' !in account && ':' !in tail
    requires !(|x| >= 11 && x[|x| - 11..] == "arn:aws:sts" && |account| == 12 && AllDigits(account))
    ensures GetArnFromIdentity(Some(x + ":" + region + ":" + account + ":" + tail)) == None
  {
    var s := x + ":" + region + ":" + account + ":" + tail;
    forall i, c | 0 <= i <= |s|
      ensures !Shape(s[i..], c)
    {
      if Shape(s[i..], c) {
        MatchFramedByColons(x, region, account, tail, i, c);
      }
    }
    GetArnRejects(Some(s));
  }

  /** The role and session part of the identities the handler's tests use. */
  const TestSessionTail: string := "assumed-role/" + "this-is-my-role-name/" + "this-is-my-username"

  lemma TestSessionTailNoColons()
    ensures ':' !in TestSessionTail
  {
    assert ':' !in "assumed-role/" && ':' !in "this-is-my-role-name/" && ':' !in "this-is-my-username";
  }

  /** The identity of another service than STS is rejected. */
  lemma WrongServiceRejected()
    ensures GetArnFromIdentity(Some("arn:aws:invalid-service" + ":" + "eu-central-1" + ":" + "123456789012" + ":" + TestSessionTail))
            == None
  {
    var x := "arn:aws:invalid-service";
    assert x[|x| - 11..] != "arn:aws:sts" by {
      assert x[|x| - 11..][0] == 'l';
    }
    TestSessionTailNoColons();
    assert ':' !in "eu-central-1" && ':' !in "123456789012";
    RejectsUnlessStsAccount(x, "eu-central-1", "123456789012", TestSessionTail);
  }

  /** An account id that is not twelve digits is rejected. */
  lemma NonDigitAccountRejected()
    ensures GetArnFromIdentity(Some("arn:aws:sts" + ":" + "eu-central-1" + ":" + "account-id" + ":" + TestSessionTail)) == None
  {
    TestSessionTailNoColons();
    assert ':' !in "eu-central-1" && ':' !in "account-id";
    RejectsUnlessStsAccount("arn:aws:sts", "eu-central-1", "account-id", TestSessionTail);
  }
}
