/**
 * The detached-process transport: it builds a `curl` command line that posts
 * the data in the background. The command is what `exec` would run; running
 * it is not modelled. The transport's enabled state, API key, endpoint and
 * proxy are parameters of `Send`.
 */
module Async {
  import opened Php
  import ApiTransport

  /** The `curl` binary the command invokes. */
  const CURL_PATH := "curl"

  // ---------------------------------------------------------------------------
  // The constructor's environment guard

  const ExecUnavailable := CSBException("PHP function 'exec' is not available, is it disabled for security reasons?")
  const WindowsUnsupported := CSBException("Exec transport is not supposed to work on Windows OS")

  /**
   * The checks of the constructor: `exec` must exist, and the operating
   * system name must not start with "win" in any letter case.
   */
  function CheckEnvironment(execAvailable: bool, osName: string): (r: Outcome)
    ensures !execAvailable ==> r == Fail(ExecUnavailable)
    ensures execAvailable && |osName| >= 3 && ToUpper(osName[..3]) == "WIN" ==> r == Fail(WindowsUnsupported)
    ensures r == Pass <==> execAvailable && !(|osName| >= 3 && ToUpper(osName[..3]) == "WIN")
  {
    if !execAvailable then Fail(ExecUnavailable)
    else if ToUpper(Prefix(osName, 3)) == "WIN" then Fail(WindowsUnsupported)
    else Pass
  }

  /** "Windows_NT", "WINNT" and "WIN32" are refused; "Linux" and "Darwin" pass. */
  lemma WindowsNamesRefused()
    ensures CheckEnvironment(true, "Windows_NT") == Fail(WindowsUnsupported)
    ensures CheckEnvironment(true, "WINNT") == Fail(WindowsUnsupported)
    ensures CheckEnvironment(true, "WIN32") == Fail(WindowsUnsupported)
    ensures CheckEnvironment(true, "Linux") == Pass
    ensures CheckEnvironment(true, "Darwin") == Pass
  {
    assert Prefix("Windows_NT", 3) == "Win";
    assert ToUpper("Win") == "WIN";
    assert Prefix("WINNT", 3) == "WIN";
    assert Prefix("WIN32", 3) == "WIN";
    assert ToUpper("WIN") == "WIN";
    assert Prefix("Linux", 3) == "Lin";
    assert ToUpper("Lin")[0] == 'L';
    assert Prefix("Darwin", 3) == "Dar";
    assert ToUpper("Dar")[0] == 'D';
  }

  // ---------------------------------------------------------------------------
  // Escaping for a single-quoted shell word

  /** The replacement for one `'`: close the quote, a double-quoted `'`, reopen. */
  const QuoteEscape := "'\"'\"'"

  /** `str_replace("'", "'\"'\"'", $s)`. */
  function EscapeArg(s: string): (r: string)
    ensures |r| >= |s|
    ensures r == [] <==> s == []
  {
    if s == [] then []
    else (if s[0] == '\'' then QuoteEscape else [s[0]]) + EscapeArg(s[1..])
  }

  /** Number of `'` in `s`. */
  function Quotes(s: string): nat {
    if s == [] then 0 else (if s[0] == '\'' then 1 else 0) + Quotes(s[1..])
  }

  /** Each `'` becomes five characters, every other character stays. */
  lemma {:induction false} EscapeArgLength(s: string)
    ensures |EscapeArg(s)| == |s| + 4 * Quotes(s)
  {
    if s != [] {
      EscapeArgLength(s[1..]);
    }
  }

  /** A string without `'` is returned unchanged. */
  lemma {:induction false} EscapeArgNoQuote(s: string)
    requires Quotes(s) == 0
    ensures EscapeArg(s) == s
  {
    if s != [] {
      EscapeArgNoQuote(s[1..]);
      assert s == [s[0]] + s[1..];
    }
  }

  /** The rewrite works character by character: escaping distributes over concatenation. */
  lemma {:induction false} EscapeArgAppend(a: string, b: string)
    ensures EscapeArg(a + b) == EscapeArg(a) + EscapeArg(b)
  {
    if a == [] {
      assert a + b == b;
    } else {
      assert (a + b)[0] == a[0] && (a + b)[1..] == a[1..] + b;
      EscapeArgAppend(a[1..], b);
    }
  }

  // ---------------------------------------------------------------------------
  // How a POSIX shell reads one word made of quoted pieces

  datatype QuoteState = Unquoted | InSingle | InDouble

  function Cons(c: char, rest: Option<string>): Option<string> {
    if rest.Some? then Some([c] + rest.value) else None
  }

  /**
   * The text a shell gets from `t`, read in state `q`, when `t` is one word
   * made only of single- and double-quoted pieces; None when it is not (an
   * unquoted character, an unterminated quote, or a `$`, backquote or
   * backslash, which are special inside double quotes).
   */
  function ShellWord(t: string, q: QuoteState): Option<string>
    decreases |t|
  {
    if t == [] then (if q == Unquoted then Some("") else None)
    else
      var c := t[0];
      match q
      case Unquoted =>
        if c == '\'' then ShellWord(t[1..], InSingle)
        else if c == '"' then ShellWord(t[1..], InDouble)
        else None
      case InSingle =>
        if c == '\'' then ShellWord(t[1..], Unquoted)
        else Cons(c, ShellWord(t[1..], InSingle))
      case InDouble =>
        if c == '"' then ShellWord(t[1..], Unquoted)
        else if c == '$' || c == '`' || c == '\\' then None
        else Cons(c, ShellWord(t[1..], InDouble))
  }

  function ConsAll(s: string, rest: Option<string>): Option<string> {
    if rest.Some? then Some(s + rest.value) else None
  }

  /** Inside single quotes, `'"'"'` reads as one `'` and the quote is open again afterwards. */
  lemma QuoteEscapeRead(tail: string)
    ensures ShellWord(QuoteEscape + tail, InSingle) == Cons('\'', ShellWord(tail, InSingle))
  {
    var t := QuoteEscape + tail;
    var after := ShellWord(tail, InSingle);
    assert t[0] == '\'' && t[1] == '"' && t[2] == '\'' && t[3] == '"' && t[4] == '\'';
    assert t[5..] == tail;
    assert t[4..][1..] == t[5..];
    assert t[3..][1..] == t[4..];
    assert t[2..][1..] == t[3..];
    assert t[1..][1..] == t[2..];
    assert ShellWord(t[4..], Unquoted) == after;
    assert ShellWord(t[3..], InDouble) == after;
    assert ShellWord(t[2..], InDouble) == Cons('\'', after);
    assert ShellWord(t[1..], Unquoted) == Cons('\'', after);
  }

  /** Inside single quotes, any character but `'` reads as itself. */
  lemma PlainCharRead(c: char, tail: string)
    requires c != '\''
    ensures ShellWord([c] + tail, InSingle) == Cons(c, ShellWord(tail, InSingle))
  {
    assert ([c] + tail)[1..] == tail;
  }

  /**
   * Inside single quotes the shell reads the escaped text back as the
   * original text and then goes on with whatever follows it.
   */
  lemma {:induction false} EscapedRead(s: string, rest: string)
    ensures ShellWord(EscapeArg(s) + rest, InSingle) == ConsAll(s, ShellWord(rest, InSingle))
  {
    if s == [] {
      assert EscapeArg(s) + rest == rest;
      var x := ShellWord(rest, InSingle);
      if x.Some? {
        assert s + x.value == x.value;
      }
    } else {
      EscapedRead(s[1..], rest);
      var tail := EscapeArg(s[1..]) + rest;
      var piece := if s[0] == '\'' then QuoteEscape else [s[0]];
      assert EscapeArg(s) == piece + EscapeArg(s[1..]);
      assert EscapeArg(s) + rest == piece + tail;
      if s[0] == '\'' {
        QuoteEscapeRead(tail);
      } else {
        PlainCharRead(s[0], tail);
      }
      assert [s[0]] + s[1..] == s;
      var x := ShellWord(rest, InSingle);
      if x.Some? {
        assert [s[0]] + (s[1..] + x.value) == s + x.value;
      }
    }
  }

  /**
   * Round trip: single-quoting the escaped text gives one shell word whose
   * value is exactly the original text, whatever it contains.
   */
  lemma QuotedArgRoundTrip(s: string)
    ensures ShellWord("'" + EscapeArg(s) + "'", Unquoted) == Some(s)
  {
    var t := "'" + EscapeArg(s) + "'";
    assert t[1..] == EscapeArg(s) + "'";
    EscapedRead(s, "'");
    assert "'"[1..] == "";
    assert s + "" == s;
  }

  // ---------------------------------------------------------------------------
  // The command line

  /** ` --header "Name: Value"` for one header. */
  function HeaderArg(h: ApiTransport.Header): string {
    " --header \"" + h.name + ": " + h.value + "\""
  }

  /** The header arguments, in header order. */
  function HeaderArgs(headers: seq<ApiTransport.Header>): string
    decreases |headers|
  {
    if headers == [] then ""
    else HeaderArgs(headers[..|headers| - 1]) + HeaderArg(headers[|headers| - 1])
  }

  /** `if ($this->proxy)`: set and not PHP-empty. */
  predicate HasProxy(proxy: Option<string>) {
    proxy.Some? && !PhpEmpty(proxy.value)
  }

  const BACKGROUND := " > /dev/null 2>&1 &"

  /** The program, the method and one ` --header` argument per API header. */
  function CommandHead(apiKey: string): string {
    CURL_PATH + " -X POST" + HeaderArgs(ApiTransport.ApiHeaders(apiKey))
  }

  /** The escaped data as one single-quoted shell word. */
  function Quoted(escapedData: string): string {
    "'" + escapedData + "'"
  }

  /** The quoted target URL and the time limit. */
  function UrlClause(endpoint: string, uri: string): string {
    " '" + endpoint + uri + "' --max-time 5"
  }

  /** ` --data`, the quoted data, the quoted target URL and the time limit. */
  function DataClause(escapedData: string, endpoint: string, uri: string): string {
    " --data " + Quoted(escapedData) + UrlClause(endpoint, uri)
  }

  function ProxyClause(proxy: Option<string>): string {
    if HasProxy(proxy) then " --proxy '" + proxy.value + "'" else ""
  }

  /** The command `send` passes to `exec`. */
  function Command(apiKey: string, endpoint: string, uri: string, data: string, proxy: Option<string>): (cmd: string)
    ensures CommandHead(apiKey) <= cmd
    ensures |cmd| > |CommandHead(apiKey)| + |EscapeArg(data)|
  {
    CommandHead(apiKey) + DataClause(EscapeArg(data), endpoint, uri) + ProxyClause(proxy) + BACKGROUND
  }

  lemma SuffixAfter(x: string, y: string)
    ensures (x + y)[|x + y| - |y|..] == y
  {
  }

  /** The three header arguments of every command, with the bearer key last. */
  lemma HeaderArgsOfApiHeaders(apiKey: string)
    ensures HeaderArgs(ApiTransport.ApiHeaders(apiKey)) ==
      HeaderArg(ApiTransport.Header("Content-Type", "application/json")) +
      HeaderArg(ApiTransport.Header("Accept", "application/json")) +
      HeaderArg(ApiTransport.Header("Authorization", "Bearer " + apiKey))
  {
    var hs := ApiTransport.ApiHeaders(apiKey);
    assert hs[..3] == hs;
    assert hs[..3][..2] == hs[..2];
    assert hs[..2][..1] == hs[..1];
    assert hs[..1][..0] == [];
    assert HeaderArgs(hs[..1]) == "" + HeaderArg(hs[0]);
    assert "" + HeaderArg(hs[0]) == HeaderArg(hs[0]);
  }

  lemma Assoc(a: string, b: string, c: string)
    ensures (a + b) + c == a + (b + c)
  {
  }

  /**
   * Every command starts with the program, the method and the three API
   * headers, ends with the redirection that sends curl to the background,
   * and has a `--proxy` clause just before that exactly when a proxy is set;
   * otherwise the time limit comes right before it.
   */
  lemma CommandShape(apiKey: string, endpoint: string, uri: string, data: string, proxy: Option<string>)
    ensures var cmd := Command(apiKey, endpoint, uri, data, proxy);
      && CommandHead(apiKey) <= cmd
      && cmd[|cmd| - |BACKGROUND|..] == BACKGROUND
      && (HasProxy(proxy) ==>
            var tail := " --proxy '" + proxy.value + "'" + BACKGROUND;
            cmd[|cmd| - |tail|..] == tail)
      && (!HasProxy(proxy) ==>
            var tail := "' --max-time 5" + BACKGROUND;
            cmd[|cmd| - |tail|..] == tail)
  {
    var cmd := Command(apiKey, endpoint, uri, data, proxy);
    var h := CommandHead(apiKey);
    var d := DataClause(EscapeArg(data), endpoint, uri);
    var p := ProxyClause(proxy);
    assert cmd == ((h + d) + p) + BACKGROUND;
    assert h <= h + d;
    assert h + d <= (h + d) + p;
    assert (h + d) + p <= cmd;
    SuffixAfter((h + d) + p, BACKGROUND);
    if HasProxy(proxy) {
      Assoc(h + d, p, BACKGROUND);
      SuffixAfter(h + d, p + BACKGROUND);
    } else {
      var x := " --data " + Quoted(EscapeArg(data)) + (" '" + endpoint + uri);
      var m := "' --max-time 5";
      Assoc(" --data " + Quoted(EscapeArg(data)), " '" + endpoint + uri, m);
      assert d == x + m;
      assert (h + d) + p == h + d;
      Assoc(h, x, m);
      Assoc(h + x, m, BACKGROUND);
      SuffixAfter(h + x, m + BACKGROUND);
    }
  }

  /**
   * The data travels as one shell word: right after the headers and
   * ` --data ` the command holds the single-quoted escaped data, which the
   * shell reads back as exactly `data`.
   */
  lemma CommandCarriesData(apiKey: string, endpoint: string, uri: string, data: string, proxy: Option<string>)
    ensures var cmd := Command(apiKey, endpoint, uri, data, proxy);
      var start := |CommandHead(apiKey) + " --data "|;
      var word := Quoted(EscapeArg(data));
      && start + |word| <= |cmd|
      && cmd[start..start + |word|] == word
      && ShellWord(word, Unquoted) == Some(data)
  {
    QuotedArgRoundTrip(data);
    var h := CommandHead(apiKey);
    var w := Quoted(EscapeArg(data));
    var u := UrlClause(endpoint, uri);
    var p := ProxyClause(proxy);
    var cmd := Command(apiKey, endpoint, uri, data, proxy);
    Assoc(h, " --data " + w, u);
    Assoc(h, " --data ", w);
    var x := (h + " --data ") + w;
    assert cmd == ((x + u) + p) + BACKGROUND;
    Assoc(x, u, p);
    Assoc(x, u + p, BACKGROUND);
    assert cmd == x + ((u + p) + BACKGROUND);
    assert cmd[..|x|] == x;
    assert x[|h + " --data "|..] == w;
  }

  // ---------------------------------------------------------------------------
  // send

  /** The `foreach` over the headers: one ` --header` argument per header, in order. */
  method AppendHeaders(cmd: string, headers: seq<ApiTransport.Header>) returns (r: string)
    ensures r == cmd + HeaderArgs(headers)
  {
    r := cmd;
    var i := 0;
    while i < |headers|
      invariant 0 <= i <= |headers|
      invariant r == cmd + HeaderArgs(headers[..i])
    {
      assert headers[..i + 1][..i] == headers[..i];
      Assoc(cmd, HeaderArgs(headers[..i]), HeaderArg(headers[i]));
      r := r + HeaderArg(headers[i]);
      i := i + 1;
    }
    assert headers[..i] == headers;
  }

  /**
   * `send($uri, $data)`: when disabled, return false and build nothing;
   * otherwise build the command header by header, hand it to `exec`, and
   * return true whatever its exit code. `command` is what would be executed.
   */
  method Send(enabled: bool, apiKey: string, endpoint: string, uri: string, data: string, proxy: Option<string>)
    returns (ok: bool, command: Option<string>)
    ensures ok == enabled
    ensures !enabled ==> command == None
    ensures enabled ==> command == Some(Command(apiKey, endpoint, uri, data, proxy))
  {
    if !enabled {
      return false, None;
    }
    var cmd := AppendHeaders(CURL_PATH + " -X POST", ApiTransport.ApiHeaders(apiKey));
    assert cmd == CommandHead(apiKey);
    var escapedData := EscapeArg(data);
    cmd := cmd + DataClause(escapedData, endpoint, uri);
    if HasProxy(proxy) {
      cmd := cmd + (" --proxy '" + proxy.value + "'");
    } else {
      assert cmd + "" == cmd;
    }
    cmd := cmd + BACKGROUND;
    return true, Some(cmd);
  }
}
