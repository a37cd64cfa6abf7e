/** Shared vocabulary of the client model: Kotlin nullable values, 32-bit `Int`
    arithmetic, the shape of an HTTP reply as the client sees it, the data
    classes the view-models carry around, and the few `String` operations the
    core uses (`isBlank`, `trim`, `Int.toString`). */
module Common {

  // ---------------------------------------------------------------------------
  // Nullable values

  /** A Kotlin nullable value: `None` stands for `null`. */
  datatype Option<+T> = None | Some(value: T) {
    /** Kotlin's elvis operator `this ?: default`. */
    function OrElse(default: T): (r: T)
      ensures Some? ==> r == value
      ensures None? ==> r == default
    {
      match this
      case Some(v) => v
      case None => default
    }
  }

  /** `x ?: y` where both sides are nullable. */
  function Elvis<T>(x: Option<T>, y: Option<T>): (r: Option<T>)
    ensures x.Some? ==> r == x
    ensures x.None? ==> r == y
  {
    if x.Some? then x else y
  }

  // ---------------------------------------------------------------------------
  // Kotlin `Int`: 32-bit two's complement, wrapping on overflow

  const MinInt32: int := -0x8000_0000
  const MaxInt32: int := 0x7fff_ffff
  const TwoTo32: int := 0x1_0000_0000

  type Int32 = x: int | MinInt32 <= x <= MaxInt32

  /** `x + 1` on a Kotlin `Int`. */
  function Inc32(x: Int32): (r: Int32)
    ensures r == x + 1 || (x == MaxInt32 && r == MinInt32)
    ensures (r - x - 1) % TwoTo32 == 0
  {
    if x == MaxInt32 then MinInt32 else x + 1
  }

  /** `x - 1` on a Kotlin `Int`. */
  function Dec32(x: Int32): (r: Int32)
    ensures r == x - 1 || (x == MinInt32 && r == MaxInt32)
    ensures (r - x + 1) % TwoTo32 == 0
  {
    if x == MinInt32 then MaxInt32 else x - 1
  }

  /** Adding one and taking one away undo each other, overflow included. */
  lemma IncDecInverse(x: Int32)
    ensures Dec32(Inc32(x)) == x
    ensures Inc32(Dec32(x)) == x
  {
  }

  // ---------------------------------------------------------------------------
  // Replies and exceptions

  /** The exception classes the core distinguishes. */
  datatype ExceptionKind = IOException | HttpException | OtherException

  /** A thrown exception: its class and its (nullable) `message`. */
  datatype Failure = Failure(kind: ExceptionKind, message: Option<string>)

  /** A Retrofit `Response<T>`: status code, status message and the
      (nullable) decoded body. */
  datatype Response<+T> = Response(code: int, message: string, body: Option<T>) {
    /** Retrofit's `isSuccessful`: a 2xx status. */
    predicate IsSuccessful() {
      200 <= code < 300
    }
  }

  /** What awaiting a network call yields: a reply, or an exception. */
  datatype Call<+T> = Returned(response: Response<T>) | Threw(failure: Failure)

  /** Kotlin string template of a nullable string: `null` prints as "null". */
  function Show(s: Option<string>): (r: string)
    ensures s.Some? ==> r == s.value
    ensures s.None? ==> r == "null"
  {
    s.OrElse("null")
  }

  // ---------------------------------------------------------------------------
  // Data classes

  datatype User = User(
    id: string,
    username: string,
    firstName: string,
    lastName: string,
    email: Option<string>,
    avatar: Option<string>,
    cover: Option<string>,
    bio: Option<string>,
    websiteUrl: Option<string>,
    followerCount: Int32,
    postCount: Int32
  )

  datatype Topic = Topic(id: string, name: string, color: string)

  datatype Post = Post(
    id: string,
    content: string,
    image: Option<string>,
    author: User,
    topic: Topic,
    isFeatured: bool,
    commentCount: Int32,
    likedCount: Int32,
    hasLiked: Option<bool>,
    hasSaved: Option<bool>,
    createdAt: string,
    updatedAt: string
  )

  datatype Comment = Comment(
    id: string,
    content: string,
    user: User,
    likedCount: Int32,
    createdAt: string,
    children: seq<Comment>
  )

  // ---------------------------------------------------------------------------
  // Strings

  /** Kotlin's `Char.isWhitespace` on the characters a form or a name can
      plausibly hold: the ASCII white space and the no-break space. */
  predicate IsWhitespace(c: char) {
    c in Whitespace
  }

  const Whitespace: set<char> :=
    {' ', '\t', '\n', '\r', '\U{B}', '\U{C}', '\U{1C}', '\U{1D}', '\U{1E}', '\U{1F}', '\U{A0}'}

  /** Kotlin's `isBlank`: empty or white space only. */
  predicate IsBlank(s: string) {
    forall i :: 0 <= i < |s| ==> IsWhitespace(s[i])
  }

  /** How many white-space characters `s` starts with. */
  function LeadingBlanks(s: string): (k: nat)
    ensures k <= |s|
    ensures forall i :: 0 <= i < k ==> IsWhitespace(s[i])
    ensures k < |s| ==> !IsWhitespace(s[k])
  {
    if s == [] || !IsWhitespace(s[0]) then 0 else 1 + LeadingBlanks(s[1..])
  }

  /** Where the white space `s` ends with begins. */
  function TrailingBlanksStart(s: string): (j: nat)
    ensures j <= |s|
    ensures forall i :: j <= i < |s| ==> IsWhitespace(s[i])
    ensures j > 0 ==> !IsWhitespace(s[j - 1])
  {
    if s == [] || !IsWhitespace(s[|s| - 1]) then |s| else TrailingBlanksStart(s[..|s| - 1])
  }

  /** `trim()`: the text between the first and the last character that is
      not white space, or nothing when there is none. */
  function Trim(s: string): (r: string)
    ensures |r| <= |s|
    ensures r != [] ==> !IsWhitespace(r[0]) && !IsWhitespace(r[|r| - 1])
    ensures r == [] <==> IsBlank(s)
    // the result is the middle of `s`, and only white space was cut off
    ensures var k := LeadingBlanks(s);
      k + |r| <= |s| && r == s[k..k + |r|] && IsBlank(s[..k]) && IsBlank(s[k + |r|..])
  {
    var k := LeadingBlanks(s);
    var j := TrailingBlanksStart(s);
    assert IsBlank(s[..k]) by {
      forall i | 0 <= i < k ensures IsWhitespace(s[..k][i]) {
        assert s[..k][i] == s[i];
      }
    }
    if k == |s| then
      assert IsBlank(s[k..]);
      []
    else
      // `s[k]` is not white space, so the trailing white space starts after it
      assert k < j;
      var tail := s[j..];
      assert IsBlank(tail) by {
        forall i | 0 <= i < |tail| ensures IsWhitespace(tail[i]) {
          assert tail[i] == s[j + i];
        }
      }
      s[k..j]
  }

  /** The decimal digit for `d`. */
  function DigitChar(d: nat): (c: char)
    requires d < 10
    ensures '0' <= c <= '9'
  {
    "0123456789"[d]
  }

  predicate IsDigits(s: string) {
    forall i :: 0 <= i < |s| ==> '0' <= s[i] <= '9'
  }

  /** The decimal spelling of a natural number, without leading zeros. */
  function NatToString(n: nat): (r: string)
    ensures r != [] && IsDigits(r)
    ensures |r| > 1 ==> r[0] != '0'
  {
    if n < 10 then [DigitChar(n)] else NatToString(n / 10) + [DigitChar(n % 10)]
  }

  /** The value of a string of decimal digits. */
  function ParseNat(s: string): nat
    requires IsDigits(s)
  {
    if s == [] then 0 else 10 * ParseNat(s[..|s| - 1]) + (s[|s| - 1] as int - '0' as int)
  }

  /** Reading a number's decimal spelling back gives the number. */
  lemma {:induction false} ParseNatToString(n: nat)
    ensures ParseNat(NatToString(n)) == n
  {
    var s := NatToString(n);
    if n >= 10 {
      ParseNatToString(n / 10);
      assert s[..|s| - 1] == NatToString(n / 10);
    }
  }

  /** Kotlin's `Int.toString()`: a minus sign for negative values, then the digits. */
  function IntToString(i: int): (r: string)
    ensures r != []
    ensures i >= 0 ==> IsDigits(r)
    ensures i < 0 ==> r[0] == '-' && IsDigits(r[1..])
    // the digits spell the value
    ensures i >= 0 ==> ParseNat(r) == i
    ensures i < 0 ==> ParseNat(r[1..]) == -i
  {
    if i < 0 then
      NegativeSpelling(-i);
      "-" + NatToString(-i)
    else
      ParseNatToString(i);
      NatToString(i)
  }

  /** A minus sign followed by a number's digits, which read back as the number. */
  lemma NegativeSpelling(n: nat)
    ensures var r := "-" + NatToString(n);
      r != [] && r[0] == '-' && r[1..] == NatToString(n) && IsDigits(r[1..]) && ParseNat(r[1..]) == n
  {
    ParseNatToString(n);
    assert ("-" + NatToString(n))[1..] == NatToString(n);
  }
}
