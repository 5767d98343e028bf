/** Input sanitisers, validators and the salted password check of
    src/utils/security.ts.

    Strings are sequences of Unicode scalar values. The SHA-256 digest and the
    random salt bytes are parameters: the model states what the functions do
    with them, not what they are. */
module Security {
  import opened Optional
  import opened Arrays

  // ---------------------------------------------------------------------
  // Whitespace and trimming
  // ---------------------------------------------------------------------

  /** The characters that `String.prototype.trim` removes and that the
      regular-expression class `\s` matches: WhiteSpace (tab, vertical tab,
      form feed, the byte-order mark and the space separators) and
      LineTerminator (line feed, carriage return, U+2028, U+2029) of
      ECMA-262. */
  predicate IsWhitespace(c: char) {
    || c == '\t' || c == '\n' || c == '\U{000B}' || c == '\U{000C}' || c == '\r'
    || c == ' ' || c == '\U{00A0}' || c == '\U{1680}'
    || ('\U{2000}' <= c <= '\U{200A}')
    || c == '\U{2028}' || c == '\U{2029}' || c == '\U{202F}' || c == '\U{205F}'
    || c == '\U{3000}' || c == '\U{FEFF}'
  }

  /** Neither the first nor the last character is whitespace. */
  predicate NoEdgeWhitespace(s: string) {
    s == [] || (!IsWhitespace(s[0]) && !IsWhitespace(s[|s| - 1]))
  }

  function TrimStart(s: string): (r: string)
    ensures |r| <= |s| && r == s[|s| - |r|..]
    ensures r == [] || !IsWhitespace(r[0])
    ensures forall k :: 0 <= k < |s| - |r| ==> IsWhitespace(s[k])
  {
    if s != [] && IsWhitespace(s[0]) then TrimStart(s[1..]) else s
  }

  function TrimEnd(s: string): (r: string)
    ensures |r| <= |s| && r == s[..|r|]
    ensures r == [] || !IsWhitespace(r[|r| - 1])
    ensures forall k :: |r| <= k < |s| ==> IsWhitespace(s[k])
  {
    if s != [] && IsWhitespace(s[|s| - 1]) then TrimEnd(s[..|s| - 1]) else s
  }

  /** `r` is the block of `s` that starts at index `i`, and everything of
      `s` before and after it is whitespace. */
  ghost predicate TrimmedAt(s: string, r: string, i: int) {
    && 0 <= i <= |s| - |r| && r == s[i..i + |r|]
    && (forall k :: 0 <= k < i ==> IsWhitespace(s[k]))
    && (forall k :: i + |r| <= k < |s| ==> IsWhitespace(s[k]))
  }

  /** `String.prototype.trim`: the result is the block of `s` between a
      whitespace-only prefix and a whitespace-only suffix, and it neither
      starts nor ends with whitespace. */
  function Trim(s: string): (r: string)
    ensures NoEdgeWhitespace(r)
    ensures exists i :: TrimmedAt(s, r, i)
    ensures forall c :: c in r ==> c in s
  {
    var t := TrimStart(s);
    var r := TrimEnd(t);
    assert r == s[|s| - |t|..][..|r|] == s[|s| - |t|..|s| - |t| + |r|];
    assert TrimmedAt(s, r, |s| - |t|);
    r
  }

  /** Trimming a string without edge whitespace changes nothing. */
  lemma TrimKeepsTrimmed(s: string)
    requires NoEdgeWhitespace(s)
    ensures Trim(s) == s
  {
  }

  // ---------------------------------------------------------------------
  // sanitizeInput
  // ---------------------------------------------------------------------

  predicate NotAngleBracket(c: char) {
    c != '<' && c != '>'
  }

  /** `sanitizeInput`: empty input gives ''; otherwise every `<` and `>` is
      removed and the rest is trimmed. */
  function SanitizeInput(input: string): (r: string)
    ensures input == "" ==> r == ""
    ensures '<' !in r && '>' !in r
    ensures NoEdgeWhitespace(r)
    ensures forall c :: c in r ==> c in input
  {
    if input == "" then "" else Trim(Filter(input, NotAngleBracket))
  }

  /** Sanitising a sanitised string changes nothing. */
  lemma {:induction false} SanitizeInputIdempotent(input: string)
    ensures SanitizeInput(SanitizeInput(input)) == SanitizeInput(input)
  {
    var r := SanitizeInput(input);
    if r != "" {
      FilterKeepsAll(r, NotAngleBracket);
      TrimKeepsTrimmed(r);
    }
  }

  // ---------------------------------------------------------------------
  // Lower-casing
  // ---------------------------------------------------------------------

  function LowerChar(c: char): char {
    if 'A' <= c <= 'Z' then (c as int + 32) as char else c
  }

  /** `String.prototype.toLowerCase`, on the ASCII letters. */
  function ToLower(s: string): (r: string)
    ensures |r| == |s|
  {
    seq(|s|, k requires 0 <= k < |s| => LowerChar(s[k]))
  }

  /** Lower-casing changes no whitespace, '@' or '.', so trimming and the
      e-mail pattern see the same structure, and lower-casing twice is
      lower-casing once. */
  lemma ToLowerFacts(s: string)
    ensures forall k :: 0 <= k < |s| ==> (IsWhitespace(ToLower(s)[k]) <==> IsWhitespace(s[k]))
    ensures forall k :: 0 <= k < |s| ==> (ToLower(s)[k] == '@' <==> s[k] == '@')
    ensures forall k :: 0 <= k < |s| ==> (ToLower(s)[k] == '.' <==> s[k] == '.')
    ensures forall k :: 0 <= k < |s| ==> !('A' <= ToLower(s)[k] <= 'Z')
    ensures ToLower(ToLower(s)) == ToLower(s)
  {
  }

  // ---------------------------------------------------------------------
  // validateEmail and sanitizeEmail
  // ---------------------------------------------------------------------

  /** The class `[^\s@]`. */
  predicate EmailChar(c: char) {
    c != '@' && !IsWhitespace(c)
  }

  /** `s` splits as `local@head.tail` with `local`, `head` and `tail`
      non-empty runs of `[^\s@]`, the '@' at index `i` and the '.' at `j`. */
  predicate EmailSplitAt(s: string, i: int, j: int) {
    && 0 < i && i + 1 < j && j + 1 < |s|
    && s[i] == '@' && s[j] == '.'
    && forall k :: 0 <= k < |s| && k != i ==> EmailChar(s[k])
  }

  /** `/^[^\s@]+@[^\s@]+\.[^\s@]+$/.test(s)`: some split of `s` into
      `local@head.tail` exists. */
  function ValidateEmail(s: string): bool {
    exists i, j | 0 <= i < |s| && 0 <= j < |s| :: EmailSplitAt(s, i, j)
  }

  /** The domain has a '.' that is neither its first nor its last character. */
  ghost predicate HasInnerDot(d: string) {
    exists j :: 0 < j < |d| - 1 && d[j] == '.'
  }

  /** The address has exactly one '@', which sits at index `i`; it has no
      whitespace; the part before the '@' is non-empty; and the part after it
      has an inner '.'. */
  ghost predicate EmailShapeAt(s: string, i: int) {
    && 0 < i < |s| && s[i] == '@'
    && (forall k :: 0 <= k < |s| && k != i ==> s[k] != '@')
    && (forall k :: 0 <= k < |s| ==> !IsWhitespace(s[k]))
    && HasInnerDot(s[i + 1..])
  }

  ghost predicate WellFormedEmail(s: string) {
    exists i :: 0 <= i < |s| && EmailShapeAt(s, i)
  }

  /** The pattern test holds exactly of the well-formed addresses. */
  lemma ValidateEmailIffWellFormed(s: string)
    ensures ValidateEmail(s) <==> WellFormedEmail(s)
  {
    if ValidateEmail(s) {
      var i, j :| 0 <= i < |s| && 0 <= j < |s| && EmailSplitAt(s, i, j);
      var d := s[i + 1..];
      assert d[j - i - 1] == s[j];
      assert HasInnerDot(d);
      assert EmailShapeAt(s, i);
    }
    if WellFormedEmail(s) {
      var i :| 0 <= i < |s| && EmailShapeAt(s, i);
      var d := s[i + 1..];
      var j' :| 0 < j' < |d| - 1 && d[j'] == '.';
      assert s[i + 1 + j'] == d[j'];
      assert EmailSplitAt(s, i, i + 1 + j');
    }
  }

  /** Lower-casing keeps an address well formed, and keeps it ill formed. */
  lemma WellFormedEmailUnderLower(s: string)
    ensures WellFormedEmail(ToLower(s)) <==> WellFormedEmail(s)
  {
    ToLowerFacts(s);
    var l := ToLower(s);
    forall i | 0 <= i < |s|
      ensures EmailShapeAt(l, i) <==> EmailShapeAt(s, i)
    {
      if 0 < i < |s| {
        var dl, ds := l[i + 1..], s[i + 1..];
        assert forall j :: 0 <= j < |ds| ==> (dl[j] == '.' <==> ds[j] == '.');
        assert HasInnerDot(dl) <==> HasInnerDot(ds);
      }
    }
  }

  /** `sanitizeEmail`: '' or the trimmed, lower-cased input, and '' exactly
      when that trimmed, lower-cased input is not a well-formed address. */
  function SanitizeEmail(email: string): (r: string)
    ensures r == "" || r == ToLower(Trim(email))
    ensures r != "" <==> WellFormedEmail(ToLower(Trim(email)))
    ensures r != "" ==> WellFormedEmail(r) && ValidateEmail(r) && NoEdgeWhitespace(r)
    ensures forall k :: 0 <= k < |r| ==> !('A' <= r[k] <= 'Z')
  {
    if email == "" then ""
    else
      var sanitized := ToLower(Trim(email));
      ValidateEmailIffWellFormed(sanitized);
      ToLowerFacts(Trim(email));
      if ValidateEmail(sanitized) then sanitized else ""
  }

  /** Sanitising a sanitised address changes nothing. */
  lemma SanitizeEmailIdempotent(email: string)
    ensures SanitizeEmail(SanitizeEmail(email)) == SanitizeEmail(email)
  {
    var r := SanitizeEmail(email);
    if r != "" {
      TrimKeepsTrimmed(r);
      ToLowerFacts(Trim(email));
    }
  }

  // ---------------------------------------------------------------------
  // sanitizePhoneNumber
  // ---------------------------------------------------------------------

  const MaxPhoneLength := 15

  /** The class `[0-9+]`. */
  predicate IsPhoneChar(c: char) {
    '0' <= c <= '9' || c == '+'
  }

  /** `sanitizePhoneNumber`: the digits and '+' signs of the input, in input
      order, cut to the first 15. */
  function SanitizePhoneNumber(phone: string): (r: string)
    ensures |r| <= MaxPhoneLength
    ensures forall c :: c in r ==> IsPhoneChar(c)
    ensures r <= Filter(phone, IsPhoneChar)
    ensures |Filter(phone, IsPhoneChar)| <= MaxPhoneLength ==> r == Filter(phone, IsPhoneChar)
    ensures |Filter(phone, IsPhoneChar)| > MaxPhoneLength ==> |r| == MaxPhoneLength
    ensures IsSubsequence(r, phone)
  {
    if phone == "" then ""
    else
      var kept := Filter(phone, IsPhoneChar);
      FilterIsSubsequence(phone, IsPhoneChar);
      var r := if |kept| <= MaxPhoneLength then kept else kept[..MaxPhoneLength];
      PrefixOfSubsequence(r, kept, phone);
      assert forall c :: c in r ==> c in kept;
      r
  }

  /** A prefix of a subsequence is a subsequence. */
  lemma {:induction false} PrefixOfSubsequence<T>(a: seq<T>, b: seq<T>, c: seq<T>)
    requires a <= b && IsSubsequence(b, c)
    ensures IsSubsequence(a, c)
    decreases |c|
  {
    if a != [] {
      if b[0] == c[0] && IsSubsequence(b[1..], c[1..]) {
        PrefixOfSubsequence(a[1..], b[1..], c[1..]);
      } else {
        PrefixOfSubsequence(a, b, c[1..]);
      }
    }
  }

  // ---------------------------------------------------------------------
  // validatePassword
  // ---------------------------------------------------------------------

  const MinPasswordLength := 8
  const TooShortMessage := "Password must be at least 8 characters"
  const NoUpperMessage := "Password must contain at least one uppercase letter"
  const NoLowerMessage := "Password must contain at least one lowercase letter"
  const NoDigitMessage := "Password must contain at least one number"

  /** `s.length`: the number of UTF-16 code units, two for every character
      outside the Basic Multilingual Plane. */
  function Utf16Length(s: string): (n: nat)
  {
    if s == [] then 0 else (if s[0] as int >= 0x1_0000 then 2 else 1) + Utf16Length(s[1..])
  }

  lemma {:induction false} Utf16LengthBounds(s: string)
    ensures |s| <= Utf16Length(s) <= 2 * |s|
  {
    if s != [] { Utf16LengthBounds(s[1..]); }
  }

  predicate HasUpper(s: string) { exists k | 0 <= k < |s| :: 'A' <= s[k] <= 'Z' }
  predicate HasLower(s: string) { exists k | 0 <= k < |s| :: 'a' <= s[k] <= 'z' }
  predicate HasDigit(s: string) { exists k | 0 <= k < |s| :: '0' <= s[k] <= '9' }

  datatype PasswordCheck = PasswordCheck(valid: bool, message: Option<string>)

  /** `validatePassword`: valid exactly when the password has at least 8
      code units, an upper-case letter, a lower-case letter and a digit;
      otherwise the message of the first failing check, in that order. */
  function ValidatePassword(password: string): (r: PasswordCheck)
    ensures r.valid <==> Utf16Length(password) >= MinPasswordLength
                         && HasUpper(password) && HasLower(password) && HasDigit(password)
    ensures r.valid <==> r.message.None?
    ensures Utf16Length(password) < MinPasswordLength ==> r.message == Some(TooShortMessage)
    ensures (Utf16Length(password) >= MinPasswordLength && !HasUpper(password))
              ==> r.message == Some(NoUpperMessage)
    ensures (Utf16Length(password) >= MinPasswordLength && HasUpper(password) && !HasLower(password))
              ==> r.message == Some(NoLowerMessage)
    ensures (Utf16Length(password) >= MinPasswordLength && HasUpper(password) && HasLower(password)
               && !HasDigit(password))
              ==> r.message == Some(NoDigitMessage)
  {
    if Utf16Length(password) < MinPasswordLength then PasswordCheck(false, Some(TooShortMessage))
    else if !HasUpper(password) then PasswordCheck(false, Some(NoUpperMessage))
    else if !HasLower(password) then PasswordCheck(false, Some(NoLowerMessage))
    else if !HasDigit(password) then PasswordCheck(false, Some(NoDigitMessage))
    else PasswordCheck(true, None)
  }

  /** Fewer than four characters can never be 8 code units; eight characters
      with the three kinds of character always pass. */
  lemma PasswordLengthVerdicts(password: string)
    ensures |password| < 4 ==> ValidatePassword(password) == PasswordCheck(false, Some(TooShortMessage))
    ensures (|password| >= MinPasswordLength && HasUpper(password) && HasLower(password) && HasDigit(password))
              ==> ValidatePassword(password).valid
  {
    Utf16LengthBounds(password);
  }

  // ---------------------------------------------------------------------
  // validateAmount
  // ---------------------------------------------------------------------

  const MaxAmount := 10_000_000

  /** `validateAmount`: strictly positive and at most ten million. */
  function ValidateAmount(amount: int): (r: bool)
    ensures r <==> 0 < amount <= MaxAmount
  {
    amount > 0 && amount <= MaxAmount
  }

  // ---------------------------------------------------------------------
  // hashPassword / verifyPassword
  // ---------------------------------------------------------------------

  predicate IsColon(c: char) { c == ':' }

  /** A stored `salt:hash` split at its first ':'; None when there is none.
      The salt is what precedes the first ':', so it has no ':' itself. */
  function SplitStoredHash(stored: string): (r: Option<(string, string)>)
    ensures r.None? <==> ':' !in stored
    ensures r.Some? ==> stored == r.value.0 + ":" + r.value.1 && ':' !in r.value.0
  {
    var k := FindIndex(stored, IsColon);
    if k < 0 then None
    else
      assert stored == stored[..k] + [stored[k]] + stored[k + 1..];
      Some((stored[..k], stored[k + 1..]))
  }

  /** Splitting `salt:hash` gives back the parts when the salt has no ':'. */
  lemma {:induction false} SplitJoined(salt: string, hash: string)
    requires ':' !in salt
    ensures SplitStoredHash(salt + ":" + hash) == Some((salt, hash))
  {
    var s := salt + ":" + hash;
    var k := FindIndex(s, IsColon);
    assert s[|salt|] == ':';
    assert forall j :: 0 <= j < |salt| ==> s[j] == salt[j];
    assert k == |salt|;
    assert s[..k] == salt && s[k + 1..] == hash;
  }

  /** What verifyPassword decides: `stored` has a ':', and what follows the
      first ':' is the digest of the salt before it followed by the password. */
  predicate PasswordMatches(password: string, stored: string, sha256: string -> string) {
    match SplitStoredHash(stored)
    case None => false
    case Some((salt, hash)) => hash == sha256(salt + password)
  }

  /** `x ^ y` on non-negative integers, bit by bit. */
  function BitXor(x: nat, y: nat): nat
    decreases x + y
  {
    if x == 0 && y == 0 then 0
    else 2 * BitXor(x / 2, y / 2) + (if x % 2 != y % 2 then 1 else 0)
  }

  /** `x | y` on non-negative integers, bit by bit. */
  function BitOr(x: nat, y: nat): nat
    decreases x + y
  {
    if x == 0 && y == 0 then 0
    else 2 * BitOr(x / 2, y / 2) + (if x % 2 == 1 || y % 2 == 1 then 1 else 0)
  }

  lemma {:induction false} BitXorZero(x: nat, y: nat)
    ensures BitXor(x, y) == 0 <==> x == y
    decreases x + y
  {
    if !(x == 0 && y == 0) { BitXorZero(x / 2, y / 2); }
  }

  lemma {:induction false} BitOrZero(x: nat, y: nat)
    ensures BitOr(x, y) == 0 <==> x == 0 && y == 0
    decreases x + y
  {
    if !(x == 0 && y == 0) { BitOrZero(x / 2, y / 2); }
  }

  /** `verifyPassword`: false without a ':'; otherwise the digest of salt and
      password is compared with the stored hash by length and then character
      by character, OR-ing the XOR of every pair of character codes into a
      mismatch accumulator that is read only after the whole string. */
  method VerifyPassword(password: string, stored: string, sha256: string -> string) returns (ok: bool)
    ensures ok == PasswordMatches(password, stored, sha256)
  {
    var separatorIndex := FindIndex(stored, IsColon);
    if separatorIndex == -1 {
      return false;
    }
    var salt := stored[..separatorIndex];
    var originalHash := stored[separatorIndex + 1..];
    var candidateHash := sha256(salt + password);
    assert SplitStoredHash(stored) == Some((salt, originalHash));

    if |originalHash| != |candidateHash| {
      return false;
    }
    var mismatch: nat := 0;
    for i := 0 to |originalHash|
      invariant mismatch == 0 <==> originalHash[..i] == candidateHash[..i]
    {
      assert originalHash[..i + 1] == originalHash[..i] + [originalHash[i]];
      assert candidateHash[..i + 1] == candidateHash[..i] + [candidateHash[i]];
      var diff := BitXor(originalHash[i] as int, candidateHash[i] as int);
      BitXorZero(originalHash[i] as int, candidateHash[i] as int);
      BitOrZero(mismatch, diff);
      mismatch := BitOr(mismatch, diff);
    }
    assert originalHash[..|originalHash|] == originalHash;
    assert candidateHash[..|candidateHash|] == candidateHash;
    return mismatch == 0;
  }

  /** Two lower-case hexadecimal digits of a byte (`toString(16).padStart(2, '0')`). */
  function HexByte(b: int): (r: string)
    requires 0 <= b < 256
    ensures |r| == 2 && ':' !in r
  {
    var digits := "0123456789abcdef";
    [digits[b / 16], digits[b % 16]]
  }

  function HexEncode(bytes: seq<int>): (r: string)
    requires forall k :: 0 <= k < |bytes| ==> 0 <= bytes[k] < 256
    ensures |r| == 2 * |bytes| && ':' !in r
  {
    if bytes == [] then "" else HexByte(bytes[0]) + HexEncode(bytes[1..])
  }

  /** `hashPassword` with the sixteen random salt bytes and the digest given:
      `salt:hash`, both hexadecimal. */
  function HashPassword(password: string, saltBytes: seq<int>, sha256: string -> string): (r: string)
    requires forall k :: 0 <= k < |saltBytes| ==> 0 <= saltBytes[k] < 256
  {
    var salt := HexEncode(saltBytes);
    salt + ":" + sha256(salt + password)
  }

  /** A password verifies against its own hash, whatever the salt bytes and
      the digest function. */
  lemma VerifyAcceptsOwnHash(password: string, saltBytes: seq<int>, sha256: string -> string)
    requires forall k :: 0 <= k < |saltBytes| ==> 0 <= saltBytes[k] < 256
    ensures PasswordMatches(password, HashPassword(password, saltBytes, sha256), sha256)
  {
    var salt := HexEncode(saltBytes);
    SplitJoined(salt, sha256(salt + password));
  }

  /** A different password verifies against that hash only if the digest
      collides on the two salted inputs. */
  lemma VerifyRejectsOtherPassword(password: string, other: string, saltBytes: seq<int>, sha256: string -> string)
    requires forall k :: 0 <= k < |saltBytes| ==> 0 <= saltBytes[k] < 256
    requires PasswordMatches(other, HashPassword(password, saltBytes, sha256), sha256)
    ensures sha256(HexEncode(saltBytes) + other) == sha256(HexEncode(saltBytes) + password)
  {
    var salt := HexEncode(saltBytes);
    SplitJoined(salt, sha256(salt + password));
  }
}
