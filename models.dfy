/**
 * Value types of the SDK: the 64-bit integer of the token bookkeeping, the OAuth token,
 * and the login request and response bodies.
 */
module Models {
  import opened Wrappers

  const MinLong: int := -0x8000_0000_0000_0000
  const MaxLong: int := 0x7FFF_FFFF_FFFF_FFFF
  const LongModulus: int := 0x1_0000_0000_0000_0000

  /** A C# `long`. */
  type Long = x: int | MinLong <= x <= MaxLong

  /** C# `long` arithmetic is unchecked: a sum that leaves the range wraps around modulo 2^64. */
  function WrapLong(x: int): (r: Long)
    ensures MinLong <= x <= MaxLong ==> r == x
    ensures (x - r) % LongModulus == 0
  {
    (x - MinLong) % LongModulus + MinLong
  }

  /**
   * The token returned by the OAuth 2 token endpoint. `expiry` (epoch seconds) is not part
   * of the provider's answer: the auth manager derives it from `expiresIn` after a fetch.
   */
  datatype OAuthToken = OAuthToken(accessToken: string, expiresIn: Option<Long>, expiry: Option<Long>)

  /** The body of the login call; both fields are optional in the JSON. */
  datatype LogInRequest = LogInRequest(username: Option<string>, password: Option<string>)

  /** What `Equals(object)` may be handed: null, a LogInResponse, or an object of another type. */
  datatype Object = Null | LogIn(response: LogInResponse) | OtherType

  /** Concatenation of `parts` with `separator` between neighbours (`string.Join`). */
  function Join(parts: seq<string>, separator: string): string
  {
    if |parts| == 0 then ""
    else if |parts| == 1 then parts[0]
    else parts[0] + separator + Join(parts[1..], separator)
  }

  /** The login response; the no-argument and the one-argument constructor both give this shape. */
  datatype LogInResponse = LogInResponse(sessionToken: Option<string> := None)
  {
    /**
     * Null-aware equality: false for null and for other types, and otherwise true
     * exactly when both tokens are null or both are the same text.
     */
    function Equals(obj: Object): (r: bool)
      ensures obj.Null? || obj.OtherType? ==> !r
      ensures r <==> obj == LogIn(this)
    {
      if obj.Null? then false
      // Reference identity implies equal tokens, which the last test also accepts.
      else if obj == LogIn(this) then true
      else
        obj.LogIn? &&
        ((sessionToken.None? && obj.response.sessionToken.None?) ||
         (sessionToken.Some? && obj.response.sessionToken.Some? && sessionToken.value == obj.response.sessionToken.value))
    }

    /** How the token is printed: "null" for a null token, the text itself otherwise. */
    function DisplayedToken(): string
    {
      match sessionToken
      case None => "null"
      case Some(s) => s
    }

    /** The text `ToString` produces. */
    function Text(): string
    {
      "LogInResponse : (this.SessionToken = " + DisplayedToken() + ")"
    }

    /** The protected `ToString(List<string>)` overload: appends this type's one field. */
    method AppendFields(toStringOutput: seq<string>) returns (output: seq<string>)
      ensures output == toStringOutput + ["this.SessionToken = " + DisplayedToken()]
    {
      var shown := if sessionToken.None? then "null"
                   else if sessionToken.value == "" then ""
                   else sessionToken.value;
      output := toStringOutput + ["this.SessionToken = " + shown];
    }

    method ToString() returns (s: string)
      ensures s == Text()
    {
      var toStringOutput: seq<string> := [];
      toStringOutput := AppendFields(toStringOutput);
      s := "LogInResponse : (" + Join(toStringOutput, ", ") + ")";
    }
  }

  lemma EqualsIsReflexive(r: LogInResponse)
    ensures r.Equals(LogIn(r))
  {
  }

  lemma EqualsIsSymmetric(a: LogInResponse, b: LogInResponse)
    ensures a.Equals(LogIn(b)) <==> b.Equals(LogIn(a))
  {
  }

  lemma EqualsIsTransitive(a: LogInResponse, b: LogInResponse, c: LogInResponse)
    requires a.Equals(LogIn(b)) && b.Equals(LogIn(c))
    ensures a.Equals(LogIn(c))
  {
  }

  lemma StripAffixes(prefix: string, x: string, y: string, suffix: string)
    requires prefix + x + suffix == prefix + y + suffix
    ensures x == y
  {
    var s := prefix + x + suffix;
    assert |x| == |y|;
    assert s[|prefix|..|prefix| + |x|] == x;
    assert (prefix + y + suffix)[|prefix|..|prefix| + |y|] == y;
  }

  /**
   * `ToString` tells responses apart, with one exception: a null token and the
   * four-letter token "null" print the same.
   */
  lemma TextDeterminesToken(a: LogInResponse, b: LogInResponse)
    requires a.Text() == b.Text()
    ensures a.Equals(LogIn(b)) || {a.sessionToken, b.sessionToken} == {None, Some("null")}
  {
    StripAffixes("LogInResponse : (this.SessionToken = ", a.DisplayedToken(), b.DisplayedToken(), ")");
  }

  lemma NullTokenPrintsLikeNullText()
    ensures LogInResponse(None).Text() == LogInResponse(Some("null")).Text()
    ensures !LogInResponse(None).Equals(LogIn(LogInResponse(Some("null"))))
  {
  }
}
