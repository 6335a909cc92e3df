/**
 * The device's HTTP command interface: the three command tokens the plugin
 * sends and the request URL that carries them,
 * `http://<host>/cm?user=<user>&password=<passwd>&cmnd=<command>`.
 * Credentials are concatenated as they are, without URL encoding.
 */
module Commands {
  import opened Wrappers
  import opened JsValues

  /** Query the power state. */
  const PowerState: string := "Power"
  /** Switch the outlet on (`Power 1`, the space percent-encoded). */
  const PowerOn: string := "Power%201"
  /** Switch the outlet off (`Power 0`). */
  const PowerOff: string := "Power%200"

  /** The query parameter that introduces the command. */
  const CommandKey: string := "&cmnd="

  predicate IsCommand(c: string) {
    c == PowerState || c == PowerOn || c == PowerOff
  }

  /**
   * The device's URL up to and including `&cmnd=`; a request appends one
   * command token to it. An absent host or credential is spelled as
   * JavaScript spells it (`undefined`).
   */
  function BaseUrl(host: Value, user: Value, passwd: Value): (u: string)
    ensures |u| >= 7 + |CommandKey| && u[..7] == "http://"
    ensures u[|u| - |CommandKey|..] == CommandKey
  {
    "http://" + ToJsString(host) + "/cm" + "?user=" + ToJsString(user)
      + "&password=" + ToJsString(passwd) + CommandKey
  }

  /** The command the outlet's On handler sends for a requested state. */
  function CommandFor(state: Value): (c: string)
    ensures IsCommand(c) && c != PowerState
    ensures c == PowerOn <==> Truthy(state)
    ensures c == PowerOff <==> !Truthy(state)
  {
    if Truthy(state) then PowerOn else PowerOff
  }

  /** The position of the last occurrence of `x` in `s`. */
  function LastIndexOf(s: string, x: char): (r: Option<nat>)
    ensures r.Some? ==> r.value < |s| && s[r.value] == x && x !in s[r.value + 1..]
    ensures r.None? ==> x !in s
  {
    if |s| == 0 then None
    else if s[|s| - 1] == x then Some(|s| - 1)
    else LastIndexOf(s[..|s| - 1], x)
  }

  /**
   * The text after a URL's last '&', provided that '&' opens the `cmnd=`
   * parameter. For the URLs the plugin builds this is the command it appended;
   * a credential holding `&cmnd=` or `#` can still make the device see another
   * command, since credentials are not encoded.
   */
  function CommandOf(url: string): (c: Option<string>)
    ensures c.Some? ==> '&' !in c.value && |c.value| + |CommandKey| <= |url|
    ensures c.Some? ==> url[|url| - |c.value| - |CommandKey|..] == CommandKey + c.value
  {
    match LastIndexOf(url, '&')
    case None => None
    case Some(i) =>
      if i + |CommandKey| <= |url| && url[i..i + |CommandKey|] == CommandKey
      then Some(url[i + |CommandKey|..])
      else None
  }

  /** Appending a command that holds no '&' to a base URL can be undone by CommandOf. */
  lemma CommandRoundTrip(base: string, cmd: string)
    requires |base| >= |CommandKey| && base[|base| - |CommandKey|..] == CommandKey
    requires '&' !in cmd
    ensures CommandOf(base + cmd) == Some(cmd)
  {
    var url := base + cmd;
    var k := |base| - |CommandKey|;
    assert url[k] == '&';
    var last := LastIndexOf(url, '&');
    assert last.Some? by { assert url[k] in url; }
    assert last.value == k;
    assert url[k..k + |CommandKey|] == CommandKey;
    assert url[k + |CommandKey|..] == cmd;
  }

  /** In every request the plugin builds, the text after the last `&cmnd=` is the command appended. */
  lemma RequestCarriesCommand(host: Value, user: Value, passwd: Value, cmd: string)
    requires IsCommand(cmd)
    ensures CommandOf(BaseUrl(host, user, passwd) + cmd) == Some(cmd)
  {
    CommandRoundTrip(BaseUrl(host, user, passwd), cmd);
  }
}
