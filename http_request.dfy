/**
 * The request builder `http_request`
 * (stm32f429/src/bin/tcp_client_alloc.rs:249-267): five lines, each
 * followed by CRLF, pushed into a `heapless::String<1024>` whose
 * `push_str` leaves the string unchanged when the text does not fit.
 * Lengths count characters, one byte each.
 */
module HttpRequest {

  /** Capacity of the `String<1024>` the request is built in. */
  const RequestCapacity: nat := 1024

  const HttpSeparator: string := "\r\n"

  /** The request line, the three headers and the empty line that ends the head. */
  function RequestLines(serverName: string): (lines: seq<string>)
    ensures |lines| == 5 && lines[0] == "GET / HTTP/1.1" && lines[4] == ""
    ensures |CrlfJoin(lines)| == |serverName| + 72
  {
    var lines := ["GET / HTTP/1.1", "Host: " + serverName, "Connection: close", "Accept-Encoding: identity", ""];
    FivePrefixes(lines);
    assert |CrlfJoin(lines[..1])| == 16;
    assert |CrlfJoin(lines[..2])| == |serverName| + 24;
    assert |CrlfJoin(lines[..3])| == |serverName| + 43;
    assert |CrlfJoin(lines[..4])| == |serverName| + 70;
    lines
  }

  /** `heapless::String::push_str`: appends all of `s` when it fits the capacity, otherwise nothing. */
  function PushStr(buf: string, s: string): (r: string)
    ensures r == buf || r == buf + s
    ensures |buf| + |s| <= RequestCapacity ==> r == buf + s
    ensures |buf| <= RequestCapacity ==> |r| <= RequestCapacity
  {
    if |buf| + |s| <= RequestCapacity then buf + s else buf
  }

  /** The text `lines` stand for: each line followed by CRLF. */
  function CrlfJoin(lines: seq<string>): string
  {
    if lines == [] then "" else CrlfJoin(lines[..|lines| - 1]) + lines[|lines| - 1] + HttpSeparator
  }

  /** What the loop builds: each line and then CRLF pushed in turn, each push kept only if it fits. */
  function Build(lines: seq<string>): (r: string)
    ensures |r| <= RequestCapacity
  {
    if lines == [] then ""
    else PushStr(PushStr(Build(lines[..|lines| - 1]), lines[|lines| - 1]), HttpSeparator)
  }

  /** `http_request`: push each line and then CRLF into an empty bounded string. */
  method HttpRequest(serverName: string) returns (req: string)
    ensures req == Build(RequestLines(serverName))
    ensures |req| <= RequestCapacity
    ensures |serverName| <= RequestCapacity - 72 ==>
      req == "GET / HTTP/1.1" + HttpSeparator + "Host: " + serverName + HttpSeparator +
             "Connection: close" + HttpSeparator + "Accept-Encoding: identity" + HttpSeparator + HttpSeparator
  {
    var lines := RequestLines(serverName);
    req := "";
    for i := 0 to |lines|
      invariant req == Build(lines[..i])
    {
      assert lines[..i + 1][..i] == lines[..i];
      req := PushStr(req, lines[i]);
      req := PushStr(req, HttpSeparator);
    }
    assert lines[..|lines|] == lines;
    if |serverName| <= RequestCapacity - 72 {
      RequestText(serverName);
    }
  }

  /** Joining a prefix of the lines gives a prefix of the text, so it is no longer. */
  lemma {:induction false} CrlfJoinGrows(lines: seq<string>, n: nat)
    requires n <= |lines|
    ensures |CrlfJoin(lines[..n])| <= |CrlfJoin(lines)|
    decreases |lines|
  {
    if n < |lines| {
      assert lines[..|lines| - 1][..n] == lines[..n];
      CrlfJoinGrows(lines[..|lines| - 1], n);
    } else {
      assert lines[..n] == lines;
    }
  }

  /** When the whole text fits the capacity, no push is dropped. */
  lemma {:induction false} BuildFits(lines: seq<string>)
    requires |CrlfJoin(lines)| <= RequestCapacity
    ensures Build(lines) == CrlfJoin(lines)
    decreases |lines|
  {
    if lines != [] {
      var init := lines[..|lines| - 1];
      CrlfJoinGrows(lines, |lines| - 1);
      BuildFits(init);
    }
  }

  /** The CRLF text of the request's lines: the four lines in order, each ended by CRLF, then the empty line. */
  lemma RequestJoin(serverName: string)
    ensures CrlfJoin(RequestLines(serverName)) ==
      "GET / HTTP/1.1" + HttpSeparator + "Host: " + serverName + HttpSeparator +
      "Connection: close" + HttpSeparator + "Accept-Encoding: identity" + HttpSeparator + HttpSeparator
  {
    var lines := RequestLines(serverName);
    var sep := HttpSeparator;
    FivePrefixes(lines);
    assert CrlfJoin(lines[..1]) == "GET / HTTP/1.1" + sep;
    assert CrlfJoin(lines[..2]) == "GET / HTTP/1.1" + sep + "Host: " + serverName + sep;
    assert CrlfJoin(lines[..3]) == "GET / HTTP/1.1" + sep + "Host: " + serverName + sep + "Connection: close" + sep;
    assert CrlfJoin(lines[..4]) == "GET / HTTP/1.1" + sep + "Host: " + serverName + sep + "Connection: close" + sep +
      "Accept-Encoding: identity" + sep;
    assert lines[4] == "" && lines[4] + sep == sep;
  }

  /**
   * For a server name of at most 952 characters the request is the four
   * lines in order, each ended by CRLF, and then the empty line, so it ends
   * in CRLF CRLF.
   */
  lemma RequestText(serverName: string)
    requires |serverName| <= RequestCapacity - 72
    ensures Build(RequestLines(serverName)) ==
      "GET / HTTP/1.1" + HttpSeparator + "Host: " + serverName + HttpSeparator +
      "Connection: close" + HttpSeparator + "Accept-Encoding: identity" + HttpSeparator + HttpSeparator
    ensures var r := Build(RequestLines(serverName)); r[|r| - 4..] == HttpSeparator + HttpSeparator
  {
    RequestJoin(serverName);
    BuildFits(RequestLines(serverName));
  }

  /** The prefixes of five lines, one line at a time, as `CrlfJoin` and `Build` unfold them. */
  lemma FivePrefixes(lines: seq<string>)
    requires |lines| == 5
    ensures lines[..0] == [] && lines[..1][..0] == [] &&
      lines[..2][..1] == lines[..1] && lines[..3][..2] == lines[..2] &&
      lines[..4][..3] == lines[..3] && lines[..5] == lines && lines[..5][..4] == lines[..4]
  {
  }

  /**
   * A server name longer than 1002 characters does not fit: its Host line
   * is dropped but the CRLF after it is kept, so the head ends right after
   * the request line and the remaining headers follow as a body.
   */
  lemma OverlongServerName(serverName: string)
    requires |serverName| > RequestCapacity - 22
    ensures Build(RequestLines(serverName)) ==
      "GET / HTTP/1.1" + HttpSeparator + HttpSeparator +
      "Connection: close" + HttpSeparator + "Accept-Encoding: identity" + HttpSeparator + HttpSeparator
  {
    var lines := RequestLines(serverName);
    FivePrefixes(lines);
    assert Build(lines[..1]) == "GET / HTTP/1.1" + HttpSeparator;
    assert Build(lines[..2]) == "GET / HTTP/1.1" + HttpSeparator + HttpSeparator;
    assert Build(lines[..3]) == "GET / HTTP/1.1" + HttpSeparator + HttpSeparator + "Connection: close" + HttpSeparator;
    assert Build(lines[..4]) == "GET / HTTP/1.1" + HttpSeparator + HttpSeparator + "Connection: close" + HttpSeparator +
      "Accept-Encoding: identity" + HttpSeparator;
    assert lines[4] == "" && Build(lines[..4]) + lines[4] == Build(lines[..4]);
  }
}
