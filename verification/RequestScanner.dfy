/** How the small web server takes a request apart. The request format is that of section 2.1 of
    RFC 9112: a request line, header lines, an empty line and a body. */
module RequestScanner {
  const BUFFER_SIZE: nat := 1024

  const CRLF := "\r\n"

  /** `tail` is what follows the path on the request line; it may be missing. */
  datatype Request = Request(verb: string, path: string, tail: string, headers: seq<string>, body: string)

  function Lines(lines: seq<string>): string {
    if lines == [] then "" else lines[0] + CRLF + Lines(lines[1..])
  }

  function RequestLine(r: Request): string {
    r.verb + " " + r.path + r.tail
  }

  function Render(r: Request): string {
    Lines([RequestLine(r)] + r.headers) + CRLF + r.body
  }

  /** A line of the head: not empty, and without a carriage return. */
  predicate IsLine(line: string) {
    line != "" && '\r' !in line
  }

  ghost predicate AreLines(lines: seq<string>) {
    forall i | 0 <= i < |lines| :: IsLine(lines[i])
  }

  /** Nothing is asked of the body, which may contain empty lines itself. */
  ghost predicate WellFormed(r: Request) {
    && ' ' !in r.verb && '\r' !in r.verb
    && ' ' !in r.path && '\r' !in r.path
    && '\r' !in r.tail && (r.tail != "" ==> r.tail[0] == ' ')
    && AreLines(r.headers)
  }

  /** The first two loops: measure the verb, and copy the path up to a space or a line end. */
  method ExtractPath(request: string, filePath: array<char>, ghost verb: string, ghost path: string, ghost rest: string)
      returns (verbLength: nat)
    requires request == verb + " " + path + rest && |request| <= BUFFER_SIZE == filePath.Length
    requires ' ' !in verb && ' ' !in path && '\r' !in path && rest != "" && (rest[0] == ' ' || rest[0] == '\r')
    modifies filePath
    ensures verbLength == |verb|
    ensures filePath[..|path| + 1] == path + ['\0']
    ensures forall k | |path| < k < filePath.Length :: filePath[k] == old(filePath[k])
  {
    var rsi := 0;
    assert request[|verb|] == ' ' && forall i | 0 <= i < |verb| :: request[i] == verb[i];
    while request[rsi] != ' '
      invariant rsi <= |verb|
      decreases |verb| - rsi
    {
      rsi := rsi + 1;
    }
    verbLength := rsi;
    rsi := rsi + 1;
    var rdi := 0;
    assert request[rsi..] == path + rest;
    while request[rsi] != ' ' && request[rsi] != '\r'
      invariant rdi <= |path| && rsi == |verb| + 1 + rdi
      invariant filePath[..rdi] == path[..rdi]
      invariant forall k | rdi <= k < filePath.Length :: filePath[k] == old(filePath[k])
      decreases |path| - rdi
    {
      assert request[rsi] == (path + rest)[rdi];
      assert rdi < |path| && path[..rdi + 1] == path[..rdi] + [path[rdi]];
      ghost var copied := filePath[..rdi];
      filePath[rdi] := request[rsi];
      assert filePath[..rdi] == copied && filePath[..rdi + 1] == filePath[..rdi] + [path[rdi]];
      rsi, rdi := rsi + 1, rdi + 1;
    }
    assert request[rsi] == (path + rest)[rdi];
    assert rdi == |path| && path[..rdi] == path;
    ghost var copied := filePath[..rdi];
    filePath[rdi] := '\0';
    assert filePath[..rdi] == copied && filePath[..rdi + 1] == filePath[..rdi] + ['\0'];
  }

  /** The inner header loop: go on to the end of the line. */
  method SkipLine(request: string, from: nat, ghost line: string, ghost after: string) returns (rdi: nat)
    requires from <= |request| && request[from..] == line + after
    requires '\r' !in line && after != "" && after[0] == '\r'
    ensures rdi == from + |line| && rdi < |request| && request[rdi..] == after
  {
    rdi := from;
    assert |request| == from + |line| + |after|;
    while request[rdi] != '\r'
      invariant from <= rdi <= from + |line|
      decreases from + |line| - rdi
    {
      assert request[rdi] == (line + after)[rdi - from];
      rdi := rdi + 1;
    }
    assert request[rdi] == (line + after)[rdi - from];
    assert request[rdi..] == (line + after)[|line|..];
  }

  lemma FirstLine(lines: seq<string>, body: string)
    requires lines != []
    ensures Lines(lines) + CRLF + body == lines[0] + (CRLF + (Lines(lines[1..]) + CRLF + body))
  {
  }

  /** A carriage return comes next exactly when the head has no more lines. */
  lemma StartsLine(lines: seq<string>, body: string)
    requires AreLines(lines)
    ensures (Lines(lines) + CRLF + body)[0] == '\r' <==> lines == []
  {
    if lines != [] {
      assert IsLine(lines[0]);
      assert (Lines(lines) + CRLF + body)[0] == lines[0][0];
    }
  }

  lemma BehindEnd(request: string, end: nat, rest: string)
    requires end <= |request| && request[end..] == CRLF + rest
    ensures end + 2 <= |request| && request[end + 2..] == rest
    ensures rest != "" ==> end + 2 < |request| && request[end + 2] == rest[0]
  {
    assert (CRLF + rest)[2..] == rest && request[end..][2..] == request[end + 2..];
  }

  /** One round of the header loop: the line and its end are behind. */
  method NextLine(request: string, from: nat, ghost lines: seq<string>, ghost body: string) returns (rdi: nat)
    requires lines != [] && AreLines(lines)
    requires from <= |request| && request[from..] == Lines(lines) + CRLF + body
    ensures from < rdi < |request| && request[rdi..] == Lines(lines[1..]) + CRLF + body
    ensures request[rdi] == '\r' <==> lines[1..] == []
  {
    hide Lines;
    ghost var rest := Lines(lines[1..]) + CRLF + body;
    FirstLine(lines, body);
    StartsLine(lines[1..], body);
    assert IsLine(lines[0]);
    var end := SkipLine(request, from, lines[0], CRLF + rest);
    BehindEnd(request, end, rest);
    rdi := end + 2;
  }

  /** The header loop stops behind the first empty line. */
  method FindBody(request: string, ghost lines: seq<string>, ghost body: string) returns (offset: nat)
    requires lines != [] && AreLines(lines) && request == Lines(lines) + CRLF + body
    ensures offset == |request| - |body| && request[offset..] == body
  {
    var rdi := 0;
    ghost var left := lines;
    assert Lines([]) + CRLF + body == CRLF + body;
    hide Lines;
    while true
      invariant rdi <= |request| && left != [] && AreLines(left)
      invariant request[rdi..] == Lines(left) + CRLF + body
      decreases |left|
    {
      rdi := NextLine(request, rdi, left, body);
      left := left[1..];
      if request[rdi] == '\r' {
        break;
      }
    }
    offset := rdi + 2;
    assert request[offset..] == body;
  }

  /** A verb of three letters is taken for GET, anything else for POST. */
  datatype Handling = Serve | Store(offset: nat, length: nat)

  /** Scanning undoes rendering: it finds the path, and for a request with a body where that
      begins and how long it is. */
  method Scan(request: string, filePath: array<char>, ghost r: Request) returns (handling: Handling)
    requires WellFormed(r) && request == Render(r) && |request| <= BUFFER_SIZE == filePath.Length
    modifies filePath
    ensures filePath[..|r.path| + 1] == r.path + ['\0']
    ensures handling.Serve? <==> |r.verb| == 3
    ensures handling.Store? ==>
              && handling.offset <= |request| && request[handling.offset..] == r.body
              && handling.length == |r.body|
  {
    ghost var lines := [RequestLine(r)] + r.headers;
    ghost var rest := r.tail + CRLF + Lines(r.headers) + CRLF + r.body;
    assert request == r.verb + " " + r.path + rest by {
      assert lines[1..] == r.headers;
    }
    var verbLength := ExtractPath(request, filePath, r.verb, r.path, rest);
    if verbLength == 3 {
      return Serve;
    }
    var offset := FindBody(request, lines, r.body);
    handling := Store(offset, |request| - offset);
  }

  /** A PUT request is served as a GET: its body is not looked at. */
  method PutIsServed(filePath: array<char>, body: string) returns (handling: Handling)
    requires filePath.Length == BUFFER_SIZE && |body| <= 1000
    modifies filePath
    ensures handling == Serve
  {
    ghost var r := Request("PUT", "/f", "", [], body);
    var request := "PUT /f" + CRLF + CRLF + body;
    assert Lines([RequestLine(r)] + []) == "PUT /f" + CRLF;
    handling := Scan(request, filePath, r);
  }

  // ---- A text is the rendering of one request only ----

  lemma StopsAtOnce(a: string, x: string, stops: set<char>)
    requires x != "" && x[0] in stops && forall c | c in stops :: c !in a
    ensures (a + x)[0] in stops <==> a == ""
  {
    if a != "" {
      assert (a + x)[0] == a[0];
    }
  }

  lemma {:induction false} SamePrefix(a: string, x: string, b: string, y: string, stops: set<char>)
    requires a + x == b + y && x != "" && y != "" && x[0] in stops && y[0] in stops
    requires forall c | c in stops :: c !in a && c !in b
    ensures a == b && x == y
  {
    StopsAtOnce(a, x, stops);
    StopsAtOnce(b, y, stops);
    if a == "" {
      assert a + x == x && b + y == y;
    } else {
      assert (a + x)[0] == a[0] && (b + y)[0] == b[0];
      assert (a + x)[1..] == a[1..] + x && (b + y)[1..] == b[1..] + y;
      SamePrefix(a[1..], x, b[1..], y, stops);
    }
  }

  lemma NoLines(body: string)
    ensures Lines([]) + CRLF + body == CRLF + body && (CRLF + body)[2..] == body
  {
  }

  lemma {:induction false} SameHead(a: seq<string>, x: string, b: seq<string>, y: string)
    requires AreLines(a) && AreLines(b) && Lines(a) + CRLF + x == Lines(b) + CRLF + y
    ensures a == b && x == y
  {
    hide Lines;
    StartsLine(a, x);
    StartsLine(b, y);
    if a == [] {
      NoLines(x);
      NoLines(y);
      BehindEnd(CRLF + x, 0, x);
    } else {
      var v, w := Lines(a[1..]) + CRLF + x, Lines(b[1..]) + CRLF + y;
      FirstLine(a, x);
      FirstLine(b, y);
      assert IsLine(a[0]) && IsLine(b[0]);
      SamePrefix(a[0], CRLF + v, b[0], CRLF + w, {'\r'});
      BehindEnd(CRLF + v, 0, v);
      BehindEnd(CRLF + w, 0, w);
      SameHead(a[1..], x, b[1..], y);
      assert a == [a[0]] + a[1..] && b == [b[0]] + b[1..];
    }
  }

  lemma RestOfLine(path: string, tail: string)
    ensures (" " + path + tail)[1..] == path + tail && path + tail + CRLF == path + (tail + CRLF)
    ensures (tail + CRLF)[..|tail|] == tail
  {
  }

  /** Equal request lines have equal parts. */
  lemma SameRequestLine(verb: string, path: string, tail: string, verb': string, path': string, tail': string)
    requires ' ' !in verb && ' ' !in verb' && ' ' !in path && ' ' !in path' && '\r' !in path && '\r' !in path'
    requires (tail != "" ==> tail[0] == ' ') && (tail' != "" ==> tail'[0] == ' ')
    requires verb + " " + path + tail == verb' + " " + path' + tail'
    ensures verb == verb' && path == path' && tail == tail'
  {
    assert verb + " " + path + tail == verb + (" " + path + tail);
    assert verb' + " " + path' + tail' == verb' + (" " + path' + tail');
    SamePrefix(verb, " " + path + tail, verb', " " + path' + tail', {' '});
    RestOfLine(path, tail);
    RestOfLine(path', tail');
    SamePrefix(path, tail + CRLF, path', tail' + CRLF, {' ', '\r'});
  }

  lemma HeadIsLines(r: Request)
    requires WellFormed(r)
    ensures AreLines([RequestLine(r)] + r.headers)
  {
  }

  /** No two well-formed requests have the same text, so what scanning finds is the request. */
  lemma RenderInjective(r: Request, s: Request)
    requires WellFormed(r) && WellFormed(s) && Render(r) == Render(s)
    ensures r == s
  {
    var a, b := [RequestLine(r)] + r.headers, [RequestLine(s)] + s.headers;
    HeadIsLines(r);
    HeadIsLines(s);
    hide Lines, AreLines;
    SameHead(a, r.body, b, s.body);
    assert a[0] == b[0] && a[1..] == r.headers && b[1..] == s.headers;
    SameRequestLine(r.verb, r.path, r.tail, s.verb, s.path, s.tail);
  }
}
