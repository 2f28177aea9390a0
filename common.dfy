/** Shared vocabulary: optional values, results, the HTTP status codes the
    services throw with, and the few JavaScript string operations the
    services use to build messages and read tokens. */
module Common {

  datatype Option<+T> = None | Some(value: T)

  /** A service call either yields a value or throws an AppError. */
  datatype Result<+T> = Ok(value: T) | Err(error: AppError)

  /** The status codes the core throws (http-status names). */
  datatype HttpStatus = BAD_REQUEST | UNAUTHORIZED | FORBIDDEN | NOT_FOUND

  /** The error object every service throws: a status and a message. */
  datatype AppError = AppError(status: HttpStatus, message: string)

  /** Thrown by the parcel and auth services alike when the acting user is missing. */
  const UserNotFound := AppError(NOT_FOUND, "User not found")

  /** JavaScript truthiness of an optional string: absent and "" are falsy. */
  predicate Truthy(s: Option<string>)
  {
    s.Some? && s.value != ""
  }

  /** `a || b` on optional strings. */
  function OrElse(s: Option<string>, fallback: string): (r: string)
    ensures Truthy(s) ==> r == s.value
    ensures !Truthy(s) ==> r == fallback
  {
    if s.Some? && s.value != "" then s.value else fallback
  }

  /** Index of the first occurrence of `c` in `s`, or `|s|` when there is none. */
  function FirstIndex(s: string, c: char): (k: nat)
    ensures k <= |s|
    ensures k < |s| ==> s[k] == c
    ensures forall j :: 0 <= j < k ==> s[j] != c
  {
    if s == [] then 0
    else if s[0] == c then 0
    else 1 + FirstIndex(s[1..], c)
  }

  /** `s.replace(c, d)` with a one-character pattern: only the first match is replaced. */
  function ReplaceFirst(s: string, c: char, d: char): (r: string)
    ensures |r| == |s|
    ensures c !in s ==> r == s
    ensures c in s ==> exists k :: 0 <= k < |s| && s[k] == c && c !in s[..k] && r == s[k := d]
  {
    var k := FirstIndex(s, c);
    if k < |s| then
      assert forall j :: 0 <= j < k ==> s[..k][j] != c;
      s[k := d]
    else
      assert forall j :: 0 <= j < |s| ==> s[j] != c;
      s
  }

  /** `s.split(" ")[1]`: the text between the first and the second space.
      Only defined when `s` holds at least one space. */
  function SecondWord(s: string): (r: string)
    requires ' ' in s
    ensures ' ' !in r
    ensures var k := FirstIndex(s, ' ');
      k < |s| && StartsWith(s[k + 1..], r) && (k + 1 + |r| == |s| || s[k + 1 + |r|] == ' ')
  {
    var k := FirstIndex(s, ' ');
    var rest := s[k + 1..];
    var m := FirstIndex(rest, ' ');
    assert forall j :: 0 <= j < m ==> rest[..m][j] != ' ';
    rest[..m]
  }

  function LowerChar(c: char): (d: char)
    ensures 'A' <= c <= 'Z' ==> 'a' <= d <= 'z'
    ensures !('A' <= c <= 'Z') ==> d == c
  {
    if 'A' <= c <= 'Z' then (c as int + 32) as char else c
  }

  /** `s.toLowerCase()` restricted to ASCII letters. */
  function ToLower(s: string): (r: string)
    ensures |r| == |s|
    ensures forall i :: 0 <= i < |s| ==> r[i] == LowerChar(s[i])
  {
    seq(|s|, i requires 0 <= i < |s| => LowerChar(s[i]))
  }

  predicate StartsWith(s: string, prefix: string)
  {
    |prefix| <= |s| && s[..|prefix|] == prefix
  }
}
