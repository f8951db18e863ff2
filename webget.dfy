// The pure helpers of src/handler/webget.cpp: the `data:` URL decoder, the SOCKS5
// proxy string, the response-header flattening and the download size guard.
// curl, the file cache and its lock are not part of this model.

module WebGet {
  import opened Utils
  import opened Text

  /**
   * dataGet: a URL of the form data:[<mediatype>][;base64],<data> (section 3 of
   * RFC 2397).  The payload after the first comma is URL-decoded and, when the
   * header before that comma ends in ";base64", base64-decoded as well.  Any
   * other URL, or one whose first comma is missing or last, gives "".
   */
  function DataGet(lib: Lib, url: string): (r: string)
    ensures !StartsWith(url, "data:") ==> r == ""
    ensures ',' !in url ==> r == ""
    ensures url != [] && IndexOf(url, ',') == |url| - 1 ==> r == ""
  {
    if !StartsWith(url, "data:") then ""
    else
      var comma := IndexOf(url, ',');
      if comma == -1 || comma == |url| - 1 then ""
      else
        var data := lib.urlDecode(url[comma + 1..]);
        if EndsWith(url[..comma], ";base64") then lib.urlSafeBase64Decode(data) else data
  }

  /**
   * A data URL "data:" + meta + "," + payload, with a comma-free header and a
   * non-empty payload, yields the decoded payload; base64 exactly when the
   * header ends in ";base64".
   */
  lemma DataGetPayload(lib: Lib, meta: string, payload: string)
    requires ',' !in meta && payload != ""
    ensures var url := "data:" + meta + "," + payload;
      DataGet(lib, url)
        == if EndsWith("data:" + meta, ";base64") then lib.urlSafeBase64Decode(lib.urlDecode(payload))
           else lib.urlDecode(payload)
  {
    var url := "data:" + meta + "," + payload;
    var k := |"data:" + meta|;
    assert url[..5] == "data:";
    assert url[..k] == "data:" + meta;
    assert url[k] == ',';
    assert url[k + 1..] == payload;
  }

  /**
   * buildSocks5ProxyString: "socks5://" + [user ":" pass "@"] + addr ":" port;
   * the credentials appear only when both are non-empty.
   */
  function Socks5ProxyString(addr: string, port: int, username: string, password: string): (r: string)
    ensures username != "" && password != "" ==>
              r == "socks5://" + username + ":" + password + "@" + addr + ":" + DecimalString(port)
    ensures username == "" || password == "" ==> r == "socks5://" + addr + ":" + DecimalString(port)
  {
    var authstr := if username != "" && password != "" then username + ":" + password + "@" else "";
    "socks5://" + authstr + addr + ":" + DecimalString(port)
  }

  /** The port can be read back: the digits after the string's last colon. */
  lemma Socks5PortReadBack(addr: string, port: nat, username: string, password: string)
    ensures var r := Socks5ProxyString(addr, port, username, password);
      var c := LastIndexOf(r, ':');
      0 <= c && AllDigits(r[c + 1..]) && DigitsValue(r[c + 1..]) == port
  {
    var r := Socks5ProxyString(addr, port, username, password);
    var d := Digits(port);
    var k := |r| - |d|;
    assert r[k - 1] == ':';
    assert r[k..] == d;
    DigitsRoundTrip(port);
  }

  /**
   * With both credentials present and free of '@', the text between the scheme and
   * the first '@' is "user:pass", and the rest is the address and port.
   */
  lemma Socks5CredentialsReadBack(addr: string, port: int, username: string, password: string)
    requires username != "" && password != "" && '@' !in username && '@' !in password
    ensures var r := Socks5ProxyString(addr, port, username, password);
      var at := IndexOf(r, '@');
      9 <= at && r[..9] == "socks5://" && r[9..at] == username + ":" + password
      && r[at + 1..] == addr + ":" + DecimalString(port)
  {
    var r := Socks5ProxyString(addr, port, username, password);
    var cred := username + ":" + password;
    var k := 9 + |cred|;
    assert r == "socks5://" + cred + "@" + (addr + ":" + DecimalString(port));
    assert r[k] == '@';
    forall i | 0 <= i < k
      ensures r[i] != '@'
    {
      if 9 <= i {
        assert r[i] == cred[i - 9];
        if i - 9 < |username| {
          assert cred[i - 9] == username[i - 9];
        } else if i - 9 > |username| {
          assert cred[i - 9] == password[i - 9 - |username| - 1];
        }
      }
    }
    assert IndexOf(r, '@') == k;
    assert r[9..k] == cred;
  }

  /** headers_map_to_array: one "key: value" line per entry of the (key-ordered) map, in order. */
  method HeadersToArray(headers: seq<(string, string)>) returns (result: seq<string>)
    ensures |result| == |headers|
    ensures forall i :: 0 <= i < |headers| ==> result[i] == headers[i].0 + ": " + headers[i].1
  {
    result := [];
    for i := 0 to |headers|
      invariant |result| == i
      invariant forall j :: 0 <= j < i ==> result[j] == headers[j].0 + ": " + headers[j].1
    {
      result := result + [headers[i].0 + ": " + headers[i].1];
    }
  }

  /** A line whose key holds no colon splits back into its key and value at the first colon. */
  lemma HeaderLineSplit(key: string, value: string)
    requires ':' !in key
    ensures var line := key + ": " + value;
      IndexOf(line, ':') == |key| && line[..|key|] == key && line[|key| + 2..] == value
  {
    var line := key + ": " + value;
    assert line[|key|] == ':';
    assert line[..|key|] == key;
    assert line[|key| + 2..] == value;
  }

  /**
   * size_checker, the curl progress callback: `sizeLimit` is the limit of the
   * progress data, None when no data was passed.  It aborts (1) exactly when a
   * non-zero limit is exceeded by the bytes downloaded so far.
   */
  function SizeChecker(sizeLimit: Option<int>, dlnow: int): (r: int)
    ensures r == 0 || r == 1
    ensures r == 1 <==> sizeLimit.Some? && sizeLimit.value != 0 && dlnow > sizeLimit.value
  {
    if sizeLimit.Some? then
      if sizeLimit.value != 0 then
        if dlnow > sizeLimit.value then 1 else 0
      else 0
    else 0
  }

  /**
   * The first step of webGet: a `data:` URL is answered by DataGet before any
   * cache or network access (None: the request goes on to those, which are not
   * part of this model).
   */
  function WebGetDataShortcut(lib: Lib, url: string): (r: Option<string>)
    ensures r.Some? <==> StartsWith(url, "data:")
    ensures r.Some? ==> r.value == DataGet(lib, url)
  {
    if StartsWith(url, "data:") then Some(DataGet(lib, url)) else None
  }
}
