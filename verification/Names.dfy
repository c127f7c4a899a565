// util/helper.go and the string keys built around it: stored file names and paths, the
// addresses and URLs of storages, and the keys of the sync log.
module Names {
  import opened Lib
  import opened Order

  const SYNC_ADD := "ADD"
  const SYNC_DELETE := "DELETE"

  // path.Ext: the suffix from the last dot of the last path element, "" without one.
  function Ext(fn: string): (e: string)
    ensures '/' !in e
    ensures e != "" ==> e[0] == '.' && '.' !in e[1..]
    ensures |e| <= |fn| && e == fn[|fn| - |e|..]
    ensures e == "" ==> forall i :: 0 <= i < |fn| && fn[i] == '.' ==> '/' in fn[i..]
  {
    if fn == "" || fn[|fn| - 1] == '/' then
      assert fn != "" ==> forall i :: 0 <= i < |fn| ==> fn[i..][|fn| - 1 - i] == '/';
      ""
    else if fn[|fn| - 1] == '.' then fn[|fn| - 1..]
    else
      var e := Ext(fn[..|fn| - 1]);
      assert forall i :: 0 <= i < |fn| - 1 ==> fn[i..] == fn[..|fn| - 1][i..] + [fn[|fn| - 1]];
      if e == "" then "" else e + [fn[|fn| - 1]]
  }

  function GenFileName(id: string, fn: string): string {
    id + Ext(fn)
  }

  // A day, its parts as strconv.Itoa prints them.
  datatype Date = Date(year: string, month: string, day: string)

  function GenFilePath(today: Date, dir: string): string {
    var root := today.year + "/" + today.month + "/" + today.day;
    if dir != "" then root + "/" + dir else root
  }

  // strings.LastIndex for a one-character needle.
  function LastIndex(s: string, c: char): (i: int)
    ensures -1 <= i < |s|
  {
    if s == "" then -1
    else if s[|s| - 1] == c then |s| - 1
    else LastIndex(s[..|s| - 1], c)
  }

  lemma LastIndexFacts(s: string, c: char)
    ensures var i := LastIndex(s, c);
      && (i >= 0 ==> s[i] == c && c !in s[i + 1..])
      && (i == -1 <==> c !in s)
  {
    if s != "" && s[|s| - 1] != c {
      LastIndexFacts(s[..|s| - 1], c);
      var i := LastIndex(s, c);
      assert s == s[..|s| - 1] + [s[|s| - 1]];
      assert i >= 0 ==> s[i + 1..] == s[..|s| - 1][i + 1..] + [s[|s| - 1]];
    }
  }

  lemma LastIndexIs(s: string, c: char, k: nat)
    requires k < |s| && s[k] == c && c !in s[k + 1..]
    ensures LastIndex(s, c) == k
  {
    LastIndexFacts(s, c);
    assert forall j :: k < j < |s| ==> s[j] == s[k + 1..][j - k - 1];
    assert forall j :: 0 <= j <= k ==> s[j..][k - j] == c;
  }

  // None stands for the slice-bounds panic on a path without a slash.
  function ParseHeaderFilePath(path: string): Option<(string, string)> {
    var index := LastIndex(path, '/');
    if index < 0 then None else Some((path[..index], path[index + 1..]))
  }

  // Joining directory and name and parsing the result gives both back, exactly for names
  // without a slash; the directory may hold anything.
  lemma ParseRoundTrip(dir: string, name: string)
    ensures ParseHeaderFilePath(dir + "/" + name) == Some((dir, name)) <==> '/' !in name
  {
    var p := dir + "/" + name;
    assert p[|dir|] == '/' && p[|dir| + 1..] == name && p[..|dir|] == dir;
    LastIndexFacts(p, '/');
    if '/' !in name { LastIndexIs(p, '/', |dir|); }
  }

  // The parse fails (the source panics) exactly on a path without a slash; otherwise it
  // splits the path at the last one.
  lemma ParseFailsWithoutSlash(path: string)
    ensures ParseHeaderFilePath(path).None? <==> '/' !in path
    ensures ParseHeaderFilePath(path).Some? ==>
      var r := ParseHeaderFilePath(path).value; path == r.0 + "/" + r.1 && '/' !in r.1
  {
    LastIndexFacts(path, '/');
  }

  // An id as snowflake prints it.
  predicate Decimal(id: string) {
    id != "" && forall c :: c in id ==> '0' <= c <= '9'
  }

  lemma FileNameHasNoSlash(id: string, fn: string)
    requires Decimal(id)
    ensures '/' !in GenFileName(id, fn)
  {
  }

  lemma FileNameInjective(id1: string, fn1: string, id2: string, fn2: string)
    requires Decimal(id1) && Decimal(id2)
    requires GenFileName(id1, fn1) == GenFileName(id2, fn2)
    ensures id1 == id2 && Ext(fn1) == Ext(fn2)
  {
    var n := GenFileName(id1, fn1);
    GeneratedId(id1, fn1);
    GeneratedId(id2, fn2);
    assert n[|id1|..] == Ext(fn1) && n[|id2|..] == Ext(fn2);
  }

  // The part of a text before the first c, or all of it.
  function UpTo(s: string, c: char): (r: string)
    ensures |r| <= |s|
  {
    if s == "" || s[0] == c then "" else [s[0]] + UpTo(s[1..], c)
  }

  lemma {:induction false} UpToAll(s: string, c: char)
    requires c !in s
    ensures UpTo(s, c) == s
  {
    if s != "" { UpToAll(s[1..], c); }
  }

  lemma {:induction false} UpToFirst(s: string, c: char, rest: string)
    requires c !in s
    ensures UpTo(s + [c] + rest, c) == s
  {
    if s != "" {
      UpToFirst(s[1..], c, rest);
      assert (s + [c] + rest)[1..] == s[1..] + [c] + rest;
    }
  }

  // What UpTo leaves out starts with c.
  lemma {:induction false} UpToFacts(s: string, c: char)
    ensures UpTo(s, c) <= s && c !in UpTo(s, c)
  {
    if s != "" && s[0] != c { UpToFacts(s[1..], c); }
  }

  // strings.Split at a one-character separator.
  function Split(s: string, c: char): seq<string>
    decreases |s|
  {
    var head := UpTo(s, c);
    if |head| == |s| then [s] else [head] + Split(s[|head| + 1..], c)
  }

  lemma SplitFirst(head: string, c: char, rest: string)
    requires c !in head
    ensures Split(head + [c] + rest, c) == [head] + Split(rest, c)
  {
    UpToFirst(head, c, rest);
    assert (head + [c] + rest)[|head| + 1..] == rest;
  }

  // The directory of an upload, taken apart at its slashes: year, month and day, and then the
  // parts of the custom directory if there is one.
  lemma FilePathParts(today: Date, dir: string)
    requires '/' !in today.year && '/' !in today.month && '/' !in today.day
    ensures Split(GenFilePath(today, dir), '/')
         == [today.year, today.month, today.day] + if dir == "" then [] else Split(dir, '/')
  {
    hide Split;
    var p := GenFilePath(today, dir);
    var rest := today.day + if dir == "" then "" else ['/'] + dir;
    assert p == today.year + ['/'] + (today.month + ['/'] + rest);
    SplitFirst(today.year, '/', today.month + ['/'] + rest);
    SplitFirst(today.month, '/', rest);
    if dir == "" {
      assert rest == today.day;
      SplitNone(today.day, '/');
    } else {
      assert rest == today.day + ['/'] + dir;
      SplitFirst(today.day, '/', dir);
    }
  }

  lemma SplitNone(s: string, c: char)
    requires c !in s
    ensures Split(s, c) == [s]
  {
    UpToAll(s, c);
  }

  // The id in a generated name: what stands before its first dot.
  function NameId(fileName: string): string {
    UpTo(fileName, '.')
  }

  // The id in the name a path ends in.
  function IdOf(path: string): string {
    if '/' in path then IdOf(path[1..]) else NameId(path)
  }

  lemma GeneratedId(id: string, fn: string)
    requires Decimal(id)
    ensures NameId(GenFileName(id, fn)) == id
  {
    hide Ext, UpTo;
    var e := Ext(fn);
    assert '.' !in id;
    if e == "" {
      assert id + e == id;
      UpToAll(id, '.');
    } else {
      assert e == ['.'] + e[1..];
      assert id + e == id + ['.'] + e[1..];
      UpToFirst(id, '.', e[1..]);
    }
  }

  lemma {:induction false} StoredPathId(filePath: string, fileName: string)
    requires '/' !in fileName
    ensures IdOf(StoredPath(filePath, fileName)) == NameId(fileName)
  {
    var p := StoredPath(filePath, fileName);
    assert p[|filePath|] == '/';
    if filePath == "" {
      assert p[1..] == fileName;
    } else {
      StoredPathId(filePath[1..], fileName);
      assert p[1..] == StoredPath(filePath[1..], fileName);
    }
  }

  // The id of an upload can be read back from its path.
  lemma UploadPathId(today: Date, dir: string, id: string, fn: string)
    requires Decimal(id)
    ensures IdOf(UploadPath(today, dir, id, fn)) == id
  {
    FileNameHasNoSlash(id, fn);
    StoredPathId(GenFilePath(today, dir), GenFileName(id, fn));
    GeneratedId(id, fn);
  }

  function StoredPath(filePath: string, fileName: string): string {
    filePath + "/" + fileName
  }

  function UploadPath(today: Date, dir: string, id: string, fn: string): string {
    StoredPath(GenFilePath(today, dir), GenFileName(id, fn))
  }

  // What an upload stores is found again by parsing the path it reports, for every custom
  // directory and every original name.
  lemma UploadPathParses(today: Date, dir: string, id: string, fn: string)
    requires Decimal(id)
    ensures ParseHeaderFilePath(UploadPath(today, dir, id, fn)) == Some((GenFilePath(today, dir), GenFileName(id, fn)))
  {
    FileNameHasNoSlash(id, fn);
    ParseRoundTrip(GenFilePath(today, dir), GenFileName(id, fn));
  }

  // Uploads with different ids never share a path, whatever the day, directory and original name.
  lemma UploadPathsNeverCollide(t1: Date, d1: string, id1: string, f1: string,
                                t2: Date, d2: string, id2: string, f2: string)
    requires Decimal(id1) && Decimal(id2)
    requires UploadPath(t1, d1, id1, f1) == UploadPath(t2, d2, id2, f2)
    ensures id1 == id2 && Ext(f1) == Ext(f2) && GenFilePath(t1, d1) == GenFilePath(t2, d2)
  {
    UploadPathParses(t1, d1, id1, f1);
    UploadPathParses(t2, d2, id2, f2);
    FileNameInjective(id1, f1, id2, f2);
  }

  lemma StoredPathInjective(d1: string, n1: string, d2: string, n2: string)
    requires '/' !in n1 && '/' !in n2
    requires StoredPath(d1, n1) == StoredPath(d2, n2)
    ensures d1 == d2 && n1 == n2
  {
    ParseRoundTrip(d1, n1);
    ParseRoundTrip(d2, n2);
  }

  // net.JoinHostPort
  function JoinHostPort(host: string, port: string): (addr: string)
    ensures addr != ""
    ensures '/' !in host && '/' !in port ==> '/' !in addr
  {
    if ':' in host then "[" + host + "]:" + port else host + ":" + port
  }

  // What a client makes of an address (net.SplitHostPort): host and port, None if it is malformed.
  function SplitHostPort(addr: string): Option<(string, string)> {
    var i := LastIndex(addr, ':');
    if i < 0 then None
    else if addr[0] == '[' then
      var host := UpTo(addr[1..], ']');
      if |host| + 2 != i || '[' in host || '[' in addr[i..] || ']' in addr[i..] then None
      else Some((host, addr[i + 1..]))
    else if ':' in addr[..i] || '[' in addr || ']' in addr then None
    else Some((addr[..i], addr[i + 1..]))
  }

  predicate Plain(s: string) {
    '[' !in s && ']' !in s
  }

  // A client finds host and port again in the address they were joined to.
  lemma EndpointRoundTrip(host: string, port: string)
    requires Plain(host) && Plain(port) && ':' !in port
    ensures SplitHostPort(JoinHostPort(host, port)) == Some((host, port))
  {
    hide LastIndex;
    var addr := JoinHostPort(host, port);
    var i := |addr| - |port| - 1;
    LastColon(host, port);
    assert addr[i..] == [':'] + port;
    if ':' in host {
      assert addr[1..] == host + [']'] + ":" + port;
      assert host + [']'] + ":" + port == host + [']'] + (":" + port);
      UpToFirst(host, ']', ":" + port);
    } else {
      assert addr == host + ":" + port && addr[..i] == host;
      assert host != "" ==> addr[0] == host[0];
    }
  }

  // Different hosts or ports never share an address, brackets or not.
  lemma EndpointInjective(h1: string, p1: string, h2: string, p2: string)
    requires ':' !in p1 && ':' !in p2 && JoinHostPort(h1, p1) == JoinHostPort(h2, p2)
    ensures h1 == h2 && p1 == p2
  {
    hide LastIndex;
    var addr := JoinHostPort(h1, p1);
    LastColon(h1, p1);
    LastColon(h2, p2);
    var i := LastIndex(addr, ':');
    assert p1 == addr[i + 1..] == p2;
    assert ':' in h1 ==> addr[..i] == "[" + h1 + "]" && h1 == addr[1..i - 1];
    assert ':' in h2 ==> addr[..i] == "[" + h2 + "]" && h2 == addr[1..i - 1];
    assert ':' !in h1 ==> addr[..i] == h1;
    assert ':' !in h2 ==> addr[..i] == h2;
  }

  lemma LastColon(host: string, port: string)
    requires ':' !in port
    ensures var addr := JoinHostPort(host, port); var i := |addr| - |port| - 1;
      LastIndex(addr, ':') == i && addr[i] == ':' && addr[i + 1..] == port
  {
    var addr := JoinHostPort(host, port);
    var i := |addr| - |port| - 1;
    assert addr[i] == ':' && addr[i + 1..] == port;
    LastIndexIs(addr, ':', i);
  }

  function BaseUrl(schema: string, addr: string): string {
    schema + "://" + addr
  }

  // The address part of a URL: what follows the first "://".
  function HostOf(url: string): string {
    if url == "" then ""
    else if url[0] != ':' then HostOf(url[1..])
    else if |url| < 3 then ""
    else url[3..]
  }

  lemma {:induction false} HostOfBaseUrl(schema: string, addr: string)
    requires ':' !in schema
    ensures HostOf(BaseUrl(schema, addr)) == addr
  {
    var u := BaseUrl(schema, addr);
    if schema == "" {
      assert u[3..] == addr;
    } else {
      HostOfBaseUrl(schema[1..], addr);
      assert u[1..] == BaseUrl(schema[1..], addr);
    }
  }

  // Schema and address are both determined by the URL.
  lemma BaseUrlInjective(s1: string, a1: string, s2: string, a2: string)
    requires ':' !in s1 && ':' !in s2 && BaseUrl(s1, a1) == BaseUrl(s2, a2)
    ensures s1 == s2 && a1 == a2
  {
    HostOfBaseUrl(s1, a1);
    HostOfBaseUrl(s2, a2);
    var u := BaseUrl(s1, a1);
    assert s1 == u[..|u| - |a1| - 3] && s2 == u[..|u| - |a2| - 3];
  }

  // A base URL is never itself an address of the form host:port.
  lemma BaseUrlHasSlash(schema: string, addr: string)
    ensures '/' in BaseUrl(schema, addr)
  {
    assert BaseUrl(schema, addr)[|schema| + 1] == '/';
  }

  function LogKey(fileName: string, action: string): (k: string)
    ensures k != ""
  {
    fileName + "@" + action
  }

  predicate IsAction(a: string) {
    a == SYNC_ADD || a == SYNC_DELETE
  }

  lemma LogKeyInjective(n1: string, a1: string, n2: string, a2: string)
    requires IsAction(a1) && IsAction(a2)
    requires LogKey(n1, a1) == LogKey(n2, a2)
    ensures n1 == n2 && a1 == a2
  {
    var k := LogKey(n1, a1);
    assert k[|k| - 1] == a1[|a1| - 1] == a2[|a2| - 1];
    assert k[..|k| - |a1| - 1] == n1 && k[..|k| - |a2| - 1] == n2;
  }

  lemma {:induction false} CommonPrefix(p: string, a: string, b: string)
    requires Below(a, b)
    ensures Below(p + a, p + b)
  {
    if p == "" {
      assert p + a == a && p + b == b;
    } else {
      CommonPrefix(p[1..], a, b);
      assert (p + a)[1..] == p[1..] + a && (p + b)[1..] == p[1..] + b;
    }
  }

  // In iteration order the ADD entry of a name comes before its DELETE entry.
  lemma AddSortsBeforeDelete(name: string)
    ensures Below(LogKey(name, SYNC_ADD), LogKey(name, SYNC_DELETE))
  {
    assert LogKey(name, SYNC_ADD) == (name + "@") + SYNC_ADD;
    assert LogKey(name, SYNC_DELETE) == (name + "@") + SYNC_DELETE;
    CommonPrefix(name + "@", SYNC_ADD, SYNC_DELETE);
  }

  // --- The URL of a fetch ---

  // The characters a URL carries as they are (a string stands for its bytes).
  predicate UrlSafe(s: string) {
    forall c :: c in s ==> Carried(c)
  }

  predicate Carried(c: char) {
    c != '?' && c != '#' && c != '%' && !IsControl(c)
  }

  predicate IsControl(c: char) {
    c < ' ' || c == '\U{7f}'
  }

  function HexValue(c: char): Option<nat> {
    if '0' <= c <= '9' then Some((c - '0') as nat)
    else if 'a' <= c <= 'f' then Some((c - 'a') as nat + 10)
    else if 'A' <= c <= 'F' then Some((c - 'A') as nat + 10)
    else None
  }

  // Percent-decoding, None for a percent sign without two hexadecimal digits behind it.
  function Unescape(s: string): (r: Option<string>)
    ensures r.Some? ==> |r.value| <= |s| && (|r.value| == |s| ==> '%' !in s && r.value == s)
    ensures '%' !in s ==> r == Some(s)
  {
    if s == "" then Some("")
    else if s[0] != '%' then
      var rest := Unescape(s[1..]);
      if rest.Some? then Some([s[0]] + rest.value) else None
    else if |s| < 3 || HexValue(s[1]).None? || HexValue(s[2]).None? then None
    else
      var rest := Unescape(s[3..]);
      if rest.Some? then Some([(HexValue(s[1]).value * 16 + HexValue(s[2]).value) as char] + rest.value) else None
  }

  // What a server is asked for when this text is put into a URL behind the host without
  // escaping: fragment and query are cut off and the rest is decoded. None when the URL does
  // not parse.
  function Requested(u: string): Option<string> {
    var front := UpTo(u, '#');
    var fragment := if |front| < |u| then u[|front| + 1..] else "";
    if (exists c :: c in front && IsControl(c)) || Unescape(fragment).None? then None
    else Unescape(UpTo(front, '?'))
  }

  lemma SafeRequested(u: string)
    requires UrlSafe(u)
    ensures Requested(u) == Some(u)
  {
    UpToAll(u, '#');
    UpToAll(u, '?');
  }

  // A server is asked for the very path exactly when the path is URL-safe.
  lemma UrlSafeIff(u: string)
    ensures UrlSafe(u) <==> Requested(u) == Some(u)
  {
    if UrlSafe(u) { SafeRequested(u); }
    if Requested(u) == Some(u) {
      var front := UpTo(u, '#');
      var x := UpTo(front, '?');
      UpToFacts(u, '#');
      UpToFacts(front, '?');
      assert Unescape(x) == Some(u) && |x| <= |front| <= |u|;
      assert x == u;
      assert front == u by { assert |front| == |u|; }
    }
  }

  // A fragment is not sent, but a malformed one spoils the URL.
  lemma FragmentCut(x: string, y: string)
    requires '#' !in x
    ensures Requested(x + "#" + y) == if Unescape(y).None? then None else Requested(x)
  {
    UpToAll(x, '#');
    UpToFirst(x, '#', y);
    assert x + "#" + y == x + ['#'] + y && (x + "#" + y)[|x| + 1..] == y;
  }

  // A query is sent apart from the path; a control character in it spoils the URL all the same.
  lemma QueryApart(x: string, y: string)
    requires '#' !in x && '?' !in x && '#' !in y
    ensures Requested(x + "?" + y) == if exists c :: c in y && IsControl(c) then None else Requested(x)
  {
    hide Unescape;
    var u := x + "?" + y;
    assert u == x + ['?'] + y && forall c :: c in u <==> c in x || c == '?' || c in y;
    UpToAll(u, '#');
    UpToAll(x, '#');
    UpToAll(x, '?');
    UpToFirst(x, '?', y);
    assert Unescape("").Some? by { Plainly(); }
    if c :| c in x && IsControl(c) { assert c in u; }
    if c :| c in y && IsControl(c) { assert c in u; }
  }

  lemma Plainly()
    ensures Unescape("") == Some("")
  {
  }

  // --- What escaping would do ---

  // Both alphabets that a percent sign may be followed by.
  function HexDigit(d: nat, upper: bool): char
    requires d < 16
  {
    if d < 10 then '0' + d as char else if upper then 'A' + (d - 10) as char else 'a' + (d - 10) as char
  }

  lemma HexRoundTrip(d: nat, upper: bool)
    requires d < 16
    ensures HexValue(HexDigit(d, upper)) == Some(d)
  {
  }

  // A byte as it stands in a URL: itself, or a percent sign with its two hexadecimal digits.
  function EscapeByte(c: char, upper: bool): string
    requires c < 256 as char
  {
    if Carried(c) then [c] else ['%', HexDigit(c as nat / 16, upper), HexDigit(c as nat % 16, upper)]
  }

  // The characters stand for bytes.
  predicate IsBytes(s: string) {
    forall i :: 0 <= i < |s| ==> s[i] < 256 as char
  }

  function Escape(s: string, upper: bool): string
    requires IsBytes(s)
  {
    if s == "" then "" else EscapeByte(s[0], upper) + Escape(s[1..], upper)
  }

  lemma {:induction false} EscapedParts(s: string, upper: bool)
    requires IsBytes(s)
    ensures Unescape(Escape(s, upper)) == Some(s)
    ensures forall c :: c in Escape(s, upper) ==> c != '?' && c != '#' && !IsControl(c)
  {
    hide IsControl, EscapeByte;
    if s != "" {
      assert s == [s[0]] + s[1..];
      EscapedParts(s[1..], upper);
      OneByte(s[0], Escape(s[1..], upper), s[1..], upper);
    }
  }

  lemma OneByte(c: char, rest: string, r: string, upper: bool)
    requires c < 256 as char && Unescape(rest) == Some(r)
    ensures Unescape(EscapeByte(c, upper) + rest) == Some([c] + r)
    ensures forall x :: x in EscapeByte(c, upper) ==> x != '?' && x != '#' && !IsControl(x)
  {
    var e := EscapeByte(c, upper) + rest;
    if Carried(c) {
      assert e[1..] == rest;
    } else {
      var n := c as nat;
      HexRoundTrip(n / 16, upper);
      HexRoundTrip(n % 16, upper);
      assert e[3..] == rest && n / 16 * 16 + n % 16 == n;
    }
  }

  // With its bytes escaped, any name is asked for as it is: only the missing escape mangles names.
  lemma EscapedRequest(u: string, upper: bool)
    requires IsBytes(u)
    ensures Requested(Escape(u, upper)) == Some(u)
  {
    hide Escape;
    EscapedParts(u, upper);
    var e := Escape(u, upper);
    UpToAll(e, '#');
    UpToAll(e, '?');
  }
}
