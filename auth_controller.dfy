/** How the authentication controller picks the client address it records
    for a login: X-Forwarded-For first, then X-Real-IP, then the socket's
    remote address. */
module AuthController {
  import opened Wrappers
  import opened JavaText

  /** getClientIp. `Err` stands for the ArrayIndexOutOfBoundsException of
      `split(",")[0]` on a header made only of commas. */
  function GetClientIp(forwardedFor: Option<string>, realIp: Option<string>, remoteAddr: string): (r: Result<string>)
  {
    if forwardedFor.Some? && forwardedFor.value != [] then
      var parts := Split(forwardedFor.value, ',');
      if parts == [] then Err("Index 0 out of bounds for length 0") else Ok(Trim(parts[0]))
    else if realIp.Some? && realIp.value != [] then Ok(realIp.value)
    else Ok(remoteAddr)
  }

  /** The header precedence and the value taken from each header. */
  lemma {:induction false} ClientIpPrecedence(forwardedFor: Option<string>, realIp: Option<string>, remoteAddr: string)
    ensures var r := GetClientIp(forwardedFor, realIp, remoteAddr);
      && (forwardedFor.Some? && forwardedFor.value != [] ==>
            if forall i :: 0 <= i < |forwardedFor.value| ==> forwardedFor.value[i] == ','
            then r.Err?
            else r == Ok(Trim(FirstPiece(forwardedFor.value, ','))))
      && (!(forwardedFor.Some? && forwardedFor.value != []) && realIp.Some? && realIp.value != [] ==> r == Ok(realIp.value))
      && (!(forwardedFor.Some? && forwardedFor.value != []) && !(realIp.Some? && realIp.value != []) ==> r == Ok(remoteAddr))
  {
    if forwardedFor.Some? && forwardedFor.value != [] {
      SplitFirstElement(forwardedFor.value, ',');
    }
  }

  /** The forwarded address is the part before the first comma, with no
      comma and no surrounding blanks in it. */
  lemma {:induction false} ForwardedAddressShape(header: string, realIp: Option<string>, remoteAddr: string)
    requires header != [] && ',' in header && header[0] != ','
    ensures var r := GetClientIp(Some(header), realIp, remoteAddr);
      r.Ok? && ',' !in r.value && |r.value| < |header|
  {
    SplitFirstElement(header, ',');
    var p := FirstPiece(header, ',');
    TrimKeepsAbsent(p, ',');
    assert |p| < |header|;
  }
}
