/** Named locks with lease expiry and fencing tokens (runtime_store.py), and the token's text form. */
module FencedLock {
  import opened Basics

  type Name = nat

  /** An opaque ownership token: the fence it was issued with and a unique owner mark. */
  datatype Token = Token(fence: nat, owner: nat)

  datatype Lease = Lease(token: Token, expires: int)

  datatype Locks = Locks(leases: map<Name, Lease>, fences: map<Name, nat>)

  function Fence(s: Locks, name: Name): nat { if name in s.fences then s.fences[name] else 0 }

  predicate HeldAt(s: Locks, name: Name, now: int) { name in s.leases && s.leases[name].expires > now }

  predicate OwnedAt(s: Locks, name: Name, token: Token, now: int) {
    HeldAt(s, name, now) && s.leases[name].token == token
  }

  function AcquireStep(s: Locks, name: Name, ttl: nat, owner: nat, now: int): (Locks, Option<Token>) {
    if HeldAt(s, name, now) then (s, None)
    else
      var token := Token(Fence(s, name) + 1, owner);
      (Locks(s.leases[name := Lease(token, now + ttl)], s.fences[name := token.fence]), Some(token))
  }

  /** Releasing does not look at the clock: an expired lease can still be released by its owner. */
  function ReleaseStep(s: Locks, name: Name, token: Token): (Locks, bool) {
    if name in s.leases && s.leases[name].token == token then (s.(leases := s.leases - {name}), true) else (s, false)
  }

  function RenewStep(s: Locks, name: Name, token: Token, ttl: nat, now: int): (Locks, bool) {
    if OwnedAt(s, name, token, now) then (s.(leases := s.leases[name := Lease(token, now + ttl)]), true) else (s, false)
  }

  /** Leases carry the newest fence issued for their name. */
  ghost predicate Sound(s: Locks) {
    forall n :: n in s.leases ==> s.leases[n].token.fence == Fence(s, n) && Fence(s, n) >= 1
  }

  // ---------------------------------------------------------------- token text

  function Digit(d: nat): char
    requires d < 10
  {
    '0' + d as char
  }

  function Decimal(n: nat): string {
    if n < 10 then [Digit(n)] else Decimal(n / 10) + [Digit(n % 10)]
  }

  /** The characters that the runtime reads as decimal digits, with their values: the ASCII ones and
      those of other scripts, but not the colon. */
  type Digits = map<char, nat>

  ghost predicate DigitTable(digits: Digits) {
    && (forall d :: 0 <= d < 10 ==> Digit(d) in digits && digits[Digit(d)] == d)
    && (forall c :: c in digits ==> digits[c] < 10)
    && ':' !in digits
  }

  predicate IsDigits(s: string, digits: Digits) {
    s != "" && forall i :: 0 <= i < |s| ==> s[i] in digits
  }

  function Number(s: string, digits: Digits): nat
    requires forall i :: 0 <= i < |s| ==> s[i] in digits
  {
    if s == "" then 0 else 10 * Number(s[..|s| - 1], digits) + digits[s[|s| - 1]]
  }

  function TokenText(fence: nat, owner: string): string { Decimal(fence) + ":" + owner }

  /** Reads the fence in front of the first colon; anything malformed is an error. */
  function LockFencingToken(token: string, digits: Digits): Option<nat> {
    var i := IndexOf(token, ':');
    if i == |token| || i + 1 == |token| || !IsDigits(token[..i], digits) || Number(token[..i], digits) < 1 then None
    else Some(Number(token[..i], digits))
  }

  lemma {:induction false} DecimalRoundTrip(n: nat, digits: Digits)
    requires DigitTable(digits)
    ensures IsDigits(Decimal(n), digits) && Number(Decimal(n), digits) == n
  {
    if n >= 10 {
      DecimalRoundTrip(n / 10, digits);
      assert Decimal(n)[..|Decimal(n)| - 1] == Decimal(n / 10);
      assert digits[Digit(n % 10)] == n % 10;
    } else {
      assert [Digit(n)][..0] == "";
    }
  }

  /** Reading back an issued token gives its fence, whatever the owner mark contains. */
  lemma FencingTokenRoundTrip(fence: nat, owner: string, digits: Digits)
    requires DigitTable(digits)
    ensures LockFencingToken(TokenText(fence, owner), digits) == if fence >= 1 && owner != "" then Some(fence) else None
  {
    DecimalRoundTrip(fence, digits);
    hide Decimal, Number, DigitTable;
    FirstColon(Decimal(fence), owner);
  }

  lemma FirstColon(front: string, owner: string)
    requires ':' !in front
    ensures var text := front + ":" + owner;
            && IndexOf(text, ':') == |front| && text[..|front|] == front && |text| == |front| + 1 + |owner|
  {
    var text := front + ":" + owner;
    assert text[|front|] == ':';
    assert forall i :: 0 <= i < |front| ==> text[i] == front[i];
  }

  /** A readable token names its fence before the first colon; zero, signs and empty owners are refused. */
  lemma FencingTokenMeaning(token: string, digits: Digits)
    requires DigitTable(digits)
    ensures LockFencingToken(token, digits).Some? <==>
            exists i ::
              0 < i < |token| - 1 && token[i] == ':' && IsDigits(token[..i], digits) && Number(token[..i], digits) >= 1
    ensures LockFencingToken(token, digits).Some? ==> LockFencingToken(token, digits).value >= 1
  {
    var i := IndexOf(token, ':');
    if LockFencingToken(token, digits).Some? {
      assert IsDigits(token[..i], digits);
    }
    forall k | 0 < k < |token| - 1 && token[k] == ':' && IsDigits(token[..k], digits)
      ensures i == k
    {
      assert forall j :: 0 <= j < k ==> token[..k][j] == token[j];
    }
  }
}
