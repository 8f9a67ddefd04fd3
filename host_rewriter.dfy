/**
 * The HTTP Host rewriter that every chunk forwarded to the local service passes
 * through (`Client.prototype.__rewrite_host` in lib/client.js and its twin
 * `rewrite_host` in index.js). It looks at the first two CRLF-separated lines
 * only, recognises a Host line by the exact, case-sensitive name before the
 * first ": ", and fails open: whatever it cannot handle goes through unchanged.
 */
module HostRewriter {
  import opened Wrappers
  import opened Text
  import opened Utf8

  /** The rewrite target is truthy: set, and not the empty string. */
  /** `if (!rewrite_host)`: an absent option and the empty string are both falsy. */
  predicate Enabled(target: Option<string>): (r: bool)
    ensures !r <==> target.None? || |target.value| == 0
  {
    target.Some? && target.value != ""
  }

  predicate IsDigit(c: char) {
    '0' <= c <= '9'
  }

  predicate AllDigits(s: string) {
    forall k | 0 <= k < |s| :: IsDigit(s[k])
  }

  /** `Number(s)` for a string of decimal digits. */
  function DecimalValue(s: string): (r: nat)
    requires AllDigits(s)
  {
    if |s| == 0 then 0 else DecimalValue(s[..|s| - 1]) * 10 + (s[|s| - 1] as int - '0' as int)
  }

  /** A string of digits has the value zero exactly when every digit is '0'. */
  lemma {:induction false} DecimalZero(s: string)
    requires AllDigits(s)
    ensures DecimalValue(s) == 0 <==> forall k | 0 <= k < |s| :: s[k] == '0'
  {
    if |s| > 0 {
      var init := s[..|s| - 1];
      DecimalZero(init);
      assert forall k | 0 <= k < |init| :: init[k] == s[k];
    }
  }

  /**
   * `port && Number(port)` for a port of decimal digits: present and not zero,
   * checked by looking for a digit other than '0'.
   */
  predicate IsNonZeroNumber(port: string): (r: bool)
    ensures r <==> |port| > 0 && AllDigits(port) && DecimalValue(port) != 0
  {
    if |port| > 0 && AllDigits(port) then
      DecimalZero(port);
      exists k | 0 <= k < |port| :: port[k] != '0'
    else
      false
  }

  /** `value.split(':')[1]`: the text after the first ':' up to the next one; None is `undefined`. */
  function PortOf(value: string): (r: Option<string>)
    ensures r.Some? <==> Contains(value, ":")
    ensures r.Some? ==> !Contains(r.value, ":")
  {
    var parts := Split(value, ":");
    SplitSingle(value, ":");
    SplitPiecesClean(value, ":");
    if |parts| >= 2 then Some(parts[1]) else None
  }

  /** The line a Host line becomes: the target, and the old port when it is a non-zero number. */
  function HostLine(target: string, port: Option<string>): (r: string)
    ensures |r| >= |"Host: " + target| && r[..|"Host: " + target|] == "Host: " + target
    ensures |r| > |"Host: " + target| <==> port.Some? && IsNonZeroNumber(port.value)
  {
    "Host: " + target + (if port.Some? && IsNonZeroNumber(port.value) then ":" + port.value else "")
  }

  /**
   * The callback given to `lines.map`: a line whose text before the first ": "
   * is `Host` becomes a Host line for the target, any other line stays. None is
   * the TypeError thrown when that line has no ": " at all (`header[1]` is
   * undefined).
   */
  function RewriteLine(line: string, target: string): (r: Option<string>)
    ensures r.None? <==> line == "Host"
    ensures r.Some? && r.value != line ==> IsHostLine(line)
  {
    HostName(line);
    var header := Split(line, ": ");
    if header[0] != "Host" then Some(line)
    else if |header| < 2 then None
    else Some(HostLine(target, PortOf(header[1])))
  }

  /** `lines.map(...)` over the two lines, None if either call throws. */
  function RewriteLines(lines: seq<string>, target: string): (r: Option<seq<string>>)
    requires |lines| == 2
    ensures r.None? <==> lines[0] == "Host" || lines[1] == "Host"
    ensures r.Some? ==> |r.value| == 2 && forall k | 0 <= k < 2 :: r.value[k] != lines[k] ==> IsHostLine(lines[k])
  {
    match (RewriteLine(lines[0], target), RewriteLine(lines[1], target))
    case (Some(first), Some(second)) => Some([first, second])
    case _ => None
  }

  /** `s.split('\r\n').slice(0, 2)`. */
  function FirstTwoLines(text: string): (r: seq<string>)
    ensures 1 <= |r| <= 2
    ensures |r| == 2 <==> Contains(text, CRLF)
  {
    SplitSingle(text, CRLF);
    var parts := Split(text, CRLF);
    if |parts| > 2 then parts[..2] else parts
  }

  /**
   * What the rewrite does to the decoded text: when enabled and the text has a
   * CRLF, its first two lines are replaced by their rewritten forms and every
   * line is joined again; otherwise, or when a line throws, the text is kept.
   */
  function RewriteText(text: string, target: Option<string>): (r: string)
    ensures !Enabled(target) || !Contains(text, CRLF) ==> r == text
  {
    SplitSingle(text, CRLF);
    var parts := Split(text, CRLF);
    if !Enabled(target) || |parts| < 2 then text
    else match RewriteLines(parts[..2], target.value)
      case None => text
      case Some(newLines) => Join(newLines + parts[2..], CRLF)
  }

  /**
   * The rewrite on the bytes of a chunk, as the source performs it: decode,
   * take the first two lines, and splice the encoded new lines onto the
   * original bytes from the UTF-8 length of the old two lines. The bytes it
   * returns are exactly the encoding of the rewritten text, so the byte offset
   * never cuts a character and nothing after the first two lines is changed.
   */
  function Rewrite(chunk: seq<Byte>, target: Option<string>): (r: seq<Byte>)
    requires Enabled(target) ==> IsValid(chunk)
    ensures !Enabled(target) ==> r == chunk
    ensures IsValid(chunk) ==> r == Encode(RewriteText(Decode(chunk).value, target))
  {
    if !Enabled(target) then
      if IsValid(chunk) then DecodeSound(chunk); chunk else chunk
    else
      DecodeSound(chunk);
      var lines := FirstTwoLines(Decode(chunk).value);
      if |lines| != 2 then chunk
      else
        var oldLength := |Encode(Join(lines, CRLF))|;
        match RewriteLines(lines, target.value)
        case None => chunk
        case Some(newLines) =>
          SpliceIsEncoding(chunk, newLines);
          Encode(Join(newLines, CRLF)) + chunk[oldLength..]
  }

  /**
   * The bytes after the old two-line prefix are the encoding of the text after
   * it, which is what makes the byte-offset splice agree with the text rewrite.
   */
  lemma SpliceIsEncoding(chunk: seq<Byte>, newLines: seq<string>)
    requires IsValid(chunk) && |newLines| == 2
    requires |FirstTwoLines(Decode(chunk).value)| == 2
    ensures |Encode(Join(FirstTwoLines(Decode(chunk).value), CRLF))| <= |chunk|
    ensures Encode(Join(newLines, CRLF)) + chunk[|Encode(Join(FirstTwoLines(Decode(chunk).value), CRLF))|..]
         == Encode(Join(newLines + Split(Decode(chunk).value, CRLF)[2..], CRLF))
  {
    var text := Decode(chunk).value;
    DecodeSound(chunk);
    var parts := Split(text, CRLF);
    var lines := parts[..2];
    var rest := if |parts| > 2 then CRLF + Join(parts[2..], CRLF) else "";
    SplitJoinsBack(text, CRLF);
    JoinAfterTwo(parts, CRLF);
    assert text == Join(lines, CRLF) + rest;
    EncodeAppend(Join(lines, CRLF), rest);
    assert chunk == Encode(Join(lines, CRLF)) + Encode(rest);
    assert chunk[|Encode(Join(lines, CRLF))|..] == Encode(rest);
    JoinReplaceTwo(parts, newLines, CRLF);
    EncodeAppend(Join(newLines, CRLF), rest);
  }

  /** A line that starts with the field name `Host` followed by ": ". */
  predicate IsHostLine(line: string) {
    |line| >= 6 && line[..6] == "Host: "
  }

  /** The field value of a Host line: the text after "Host: " up to the next ": ". */
  function FieldValue(line: string): string
    requires IsHostLine(line)
  {
    var v := line[6..];
    match IndexOf(v, ": ")
    case None => v
    case Some(i) => v[..i]
  }

  /** The text before the first ": " is `Host` exactly when the line is `Host` or starts with "Host: ". */
  lemma HostName(line: string)
    ensures Split(line, ": ")[0] == "Host" <==> line == "Host" || IsHostLine(line)
    ensures Split(line, ": ")[0] == "Host" && |Split(line, ": ")| >= 2 <==> IsHostLine(line)
  {
    SplitHead(line, ": ");
    match IndexOf(line, ": ")
    case None =>
      if IsHostLine(line) {
        HostLineColonSpace(line);
      }
    case Some(i) =>
      if line[..i] == "Host" {
        HostBeforeColonSpace(line, i);
      } else if IsHostLine(line) {
        HostLineColonSpace(line);
      }
      NameHasNoColonSpace();
      assert OccursAt(line, ": ", i);
  }

  /** In a Host line the first ": " is the one after the name. */
  lemma HostLineColonSpace(line: string)
    requires IsHostLine(line)
    ensures IndexOf(line, ": ") == Some(4)
  {
    assert OccursAt(line, ": ", 4) by {
      assert line[4..6] == "Host: "[4..6];
    }
    forall j | 0 <= j < 4 ensures !OccursAt(line, ": ", j) {
      assert line[j] == "Host: "[j] && line[j + 1] == "Host: "[j + 1];
    }
  }

  /** A line whose text before the first ": " is `Host` is a Host line. */
  lemma HostBeforeColonSpace(line: string, i: nat)
    requires IndexOf(line, ": ") == Some(i) && line[..i] == "Host"
    ensures IsHostLine(line)
  {
    assert OccursAt(line, ": ", i);
    assert line[..6] == line[..4] + line[4..6];
  }

  /** The field value is the second piece of the split on ": ". */
  lemma FieldValueIsSecondPiece(line: string)
    requires IsHostLine(line)
    ensures |Split(line, ": ")| >= 2 && Split(line, ": ")[1] == FieldValue(line)
  {
    var v := line[6..];
    assert line == "Host" + ": " + v by {
      assert line == line[..6] + line[6..];
    }
    NameHasNoColonSpace();
    NoSelfOverlapColonSpace();
    SplitAfter("Host", ": ", v);
  }

  lemma NameHasNoColonSpace()
    ensures !Contains("Host", ": ")
  {
    forall j | 0 <= j <= 4 ensures !OccursAt("Host", ": ", j) {
      if j + 2 <= 4 {
        assert "Host"[j + 1] != ' ';
      }
    }
  }

  lemma NoSelfOverlapColonSpace()
    ensures NoSelfOverlap(": ")
  {
    assert ": "[1..] == " " && ": "[..1] == ":";
  }

  /**
   * A line is rewritten only when it is a Host line, and a line that is exactly
   * `Host` makes the rewrite throw; every other line is kept as it is.
   */
  lemma RewriteLineCases(line: string, target: string)
    ensures line == "Host" ==> RewriteLine(line, target).None?
    ensures IsHostLine(line) ==> RewriteLine(line, target) == Some(HostLine(target, PortOf(FieldValue(line))))
    ensures line != "Host" && !IsHostLine(line) ==> RewriteLine(line, target) == Some(line)
  {
    HostName(line);
    if IsHostLine(line) {
      FieldValueIsSecondPiece(line);
    }
  }

  /** `host:port` with a single colon yields the port; a value without a colon yields none. */
  lemma PortOfHostAndPort(host: string, port: string)
    requires !Contains(host, ":") && !Contains(port, ":")
    ensures PortOf(host) == None
    ensures PortOf(host + ":" + port) == Some(port)
  {
    SplitAfter(host, ":", port);
    assert Split(port, ":") == [port];
  }

  /**
   * The rule of the unit tests: `Host: localhost` becomes `Host: <target>`, and
   * `Host: localhost:8080` becomes `Host: <target>:8080`; a port that is zero or
   * not a number is dropped.
   */
  lemma HostLinePortRule(host: string, port: string, target: string)
    requires !Contains(host, ":") && !Contains(port, ":")
    requires |port| == 0 || port[0] != ' '
    ensures RewriteLine("Host: " + host, target) == Some("Host: " + target)
    ensures RewriteLine("Host: " + host + ":" + port, target)
         == Some(if IsNonZeroNumber(port) then "Host: " + target + ":" + port else "Host: " + target)
  {
    BareHostLine(host, target);
    HostPortLine(host, port, target);
  }

  lemma BareHostLine(host: string, target: string)
    requires !Contains(host, ":")
    ensures RewriteLine("Host: " + host, target) == Some("Host: " + target)
  {
    var l1 := "Host: " + host;
    assert l1[..6] == "Host: " && l1[6..] == host;
    assert PortOf(host) == None;
    NoChar(host, ':');
    NoColonSpace(host);
    assert FieldValue(l1) == host;
    RewriteLineCases(l1, target);
    assert HostLine(target, None) == "Host: " + target;
  }

  lemma HostPortLine(host: string, port: string, target: string)
    requires !Contains(host, ":") && !Contains(port, ":")
    requires |port| == 0 || port[0] != ' '
    ensures RewriteLine("Host: " + host + ":" + port, target)
         == Some(if IsNonZeroNumber(port) then "Host: " + target + ":" + port else "Host: " + target)
  {
    var v := host + ":" + port;
    var l2 := "Host: " + v;
    assert l2 == "Host: " + host + ":" + port;
    assert l2[..6] == "Host: " && l2[6..] == v;
    PortOfHostAndPort(host, port);
    ColonNotBeforeSpace(host, port);
    NoColonSpace(v);
    assert FieldValue(l2) == v;
    RewriteLineCases(l2, target);
    assert RewriteLine(l2, target) == Some(HostLine(target, Some(port)));
    HostLineShape(target, port);
  }

  lemma HostLineShape(target: string, port: string)
    ensures HostLine(target, Some(port))
         == if IsNonZeroNumber(port) then "Host: " + target + ":" + port else "Host: " + target
  {
    if IsNonZeroNumber(port) {
      assert "Host: " + target + (":" + port) == "Host: " + target + ":" + port;
    } else {
      assert "Host: " + target + "" == "Host: " + target;
    }
  }

  lemma ColonNotBeforeSpace(host: string, port: string)
    requires !Contains(host, ":") && !Contains(port, ":")
    requires |port| == 0 || port[0] != ' '
    ensures var v := host + ":" + port; forall j | 0 <= j < |v| - 1 && v[j] == ':' :: v[j + 1] != ' '
  {
    var v := host + ":" + port;
    NoChar(host, ':');
    NoChar(port, ':');
    forall j | 0 <= j < |v| - 1 ensures v[j] == ':' ==> v[j + 1] != ' ' {
      if j < |host| {
        assert v[j] == host[j];
      } else if j > |host| {
        assert v[j] == port[j - |host| - 1];
      } else {
        assert v[j + 1] == port[0];
      }
    }
  }

  /** A one-character string that does not occur is a character that does not occur. */
  lemma NoChar(s: string, c: char)
    requires !Contains(s, [c])
    ensures forall j | 0 <= j < |s| :: s[j] != c
  {
    forall j | 0 <= j < |s| ensures s[j] != c {
      assert !OccursAt(s, [c], j);
      assert s[j..j + 1] == [s[j]];
    }
  }

  /** A value in which no ':' is followed by a space holds no ": ", so it is the whole field value. */
  lemma NoColonSpace(v: string)
    requires forall j | 0 <= j < |v| - 1 && v[j] == ':' :: v[j + 1] != ' '
    ensures IndexOf(v, ": ").None?
  {
    forall j | 0 <= j <= |v| ensures !OccursAt(v, ": ", j) {
      if j + 2 <= |v| {
        assert v[j..j + 2][0] == v[j] && v[j..j + 2][1] == v[j + 1];
      }
    }
    AbsentHasNoIndex(v, ": ");
  }

  /** A string without a given character does not contain it. */
  lemma WithoutChar(s: string, c: char)
    requires forall j | 0 <= j < |s| :: s[j] != c
    ensures !Contains(s, [c])
  {
    forall j | 0 <= j <= |s| ensures !OccursAt(s, [c], j) {
      if j + 1 <= |s| {
        assert s[j..j + 1] == [s[j]];
      }
    }
  }

  /** A string without a carriage return holds no CRLF. */
  lemma WithoutCr(s: string)
    requires forall j | 0 <= j < |s| :: s[j] != '\r'
    ensures !Contains(s, CRLF)
  {
    forall j | 0 <= j <= |s| ensures !OccursAt(s, CRLF, j) {
      if j + 2 <= |s| {
        assert s[j..j + 2][0] == s[j];
      }
    }
  }

  /** A replacement Host line is a single line when the target is. */
  lemma HostLineIsOneLine(target: string, port: Option<string>)
    requires !Contains(target, CRLF)
    ensures !Contains(HostLine(target, port), CRLF)
  {
    var name := "Host: ";
    WithoutCr(name);
    ConcatNoCrlf(name, target);
    if port.Some? && IsNonZeroNumber(port.value) {
      var suffix := ":" + port.value;
      forall j | 0 <= j < |suffix| ensures suffix[j] != '\r' {
        if j > 0 {
          assert suffix[j] == port.value[j - 1];
          assert IsDigit(port.value[j - 1]);
        }
      }
      WithoutCr(suffix);
      ConcatNoCrlf(name + target, suffix);
      assert HostLine(target, port) == name + target + suffix;
    } else {
      assert HostLine(target, port) == name + target;
    }
  }

  /**
   * When the rewrite is off, the chunk has no CRLF, one of its first two lines
   * is exactly `Host` (the rewrite throws), or neither of them is a Host line,
   * the text comes back unchanged.
   */
  lemma UnchangedCases(text: string, target: Option<string>)
    ensures !Enabled(target) ==> RewriteText(text, target) == text
    ensures !Contains(text, CRLF) ==> RewriteText(text, target) == text
    ensures Contains(text, CRLF) && "Host" in FirstTwoLines(text) ==> RewriteText(text, target) == text
    ensures Contains(text, CRLF) && (forall line <- FirstTwoLines(text) :: !IsHostLine(line))
            ==> RewriteText(text, target) == text
  {
    var parts := Split(text, CRLF);
    SplitSingle(text, CRLF);
    if Enabled(target) && |parts| >= 2 {
      var lines := parts[..2];
      assert FirstTwoLines(text) == lines;
      LinesKept(lines, target.value);
      if RewriteLines(lines, target.value) == Some(lines) {
        assert lines + parts[2..] == parts;
        SplitJoinsBack(text, CRLF);
      }
    }
  }

  /** The two lines fail to rewrite when one is exactly `Host`, and are kept when neither is a Host line. */
  lemma LinesKept(lines: seq<string>, target: string)
    requires |lines| == 2
    ensures "Host" in lines ==> RewriteLines(lines, target).None?
    ensures (forall line <- lines :: !IsHostLine(line)) && "Host" !in lines ==> RewriteLines(lines, target) == Some(lines)
  {
    RewriteLineCases(lines[0], target);
    RewriteLineCases(lines[1], target);
    assert lines == [lines[0], lines[1]];
  }

  /**
   * When the rewrite happens, the lines of the result are the two rewritten
   * lines followed by the original lines from the third on: only the first two
   * lines change, and everything from the CRLF that ends the second line is
   * kept. This needs a target that is itself a single line.
   */
  lemma RewrittenLines(text: string, target: Option<string>, newLines: seq<string>)
    requires Enabled(target) && !Contains(target.value, CRLF)
    requires Contains(text, CRLF)
    requires RewriteLines(FirstTwoLines(text), target.value) == Some(newLines)
    ensures Split(RewriteText(text, target), CRLF) == newLines + Split(text, CRLF)[2..]
  {
    var parts := Split(text, CRLF);
    SplitSingle(text, CRLF);
    SplitPiecesClean(text, CRLF);
    assert FirstTwoLines(text) == parts[..2];
    NewLinesAreLines(parts[..2], target.value, newLines);
    var all := newLines + parts[2..];
    forall k | 0 <= k < |all| ensures !Contains(all[k], CRLF) {
      if k >= 2 {
        assert all[k] == parts[k];
      }
    }
    CrlfHasNoSelfOverlap();
    SplitJoin(all, CRLF);
  }

  /** Rewriting lines without CRLF to a target without CRLF gives lines without CRLF. */
  lemma NewLinesAreLines(lines: seq<string>, target: string, newLines: seq<string>)
    requires |lines| == 2 && !Contains(target, CRLF)
    requires forall k | 0 <= k < 2 :: !Contains(lines[k], CRLF)
    requires RewriteLines(lines, target) == Some(newLines)
    ensures |newLines| == 2 && forall k | 0 <= k < 2 :: !Contains(newLines[k], CRLF)
  {
    forall k | 0 <= k < 2 ensures !Contains(newLines[k], CRLF) {
      RewriteLineCases(lines[k], target);
      if IsHostLine(lines[k]) {
        HostLineIsOneLine(target, PortOf(FieldValue(lines[k])));
      }
    }
  }

  /** The request of the unit test: its Host line is replaced and every other line is kept. */
  lemma GetRequestExample(request: string, target: string)
    requires request == "GET / HTTP/1.1\r\nHost: localhost\r\n\r\n" && target != ""
    ensures RewriteText(request, Some(target)) == "GET / HTTP/1.1" + CRLF + ("Host: " + target) + CRLF + CRLF
  {
    var parts := GetRequestLines(request);
    RequestLineKept(parts[0], target);
    LocalhostReplaced(parts[1], target);
    AssembleFourLines(request, target, parts, [parts[0], "Host: " + target]);
  }

  /** The rewrite of a four-line text ending in an empty line, once its first two lines are known. */
  lemma AssembleFourLines(text: string, target: string, parts: seq<string>, newLines: seq<string>)
    requires target != "" && Split(text, CRLF) == parts
    requires |parts| == 4 && parts[2] == parts[3] == "" && |newLines| == 2
    requires RewriteLine(parts[0], target) == Some(newLines[0])
    requires RewriteLine(parts[1], target) == Some(newLines[1])
    ensures RewriteText(text, Some(target)) == newLines[0] + CRLF + newLines[1] + CRLF + CRLF
  {
    BothLinesRewritten(parts[..2], target, newLines);
    RewriteTextOfLines(text, target, newLines);
    JoinFourLines(newLines + parts[2..], newLines[0] + CRLF + newLines[1] + CRLF + CRLF);
  }

  lemma BothLinesRewritten(lines: seq<string>, target: string, newLines: seq<string>)
    requires |lines| == 2 && |newLines| == 2
    requires RewriteLine(lines[0], target) == Some(newLines[0])
    requires RewriteLine(lines[1], target) == Some(newLines[1])
    ensures RewriteLines(lines, target) == Some(newLines)
  {
    assert newLines == [newLines[0], newLines[1]];
  }

  /** Unfolds the rewrite for a text whose first two lines are rewritten without throwing. */
  lemma RewriteTextOfLines(text: string, target: string, newLines: seq<string>)
    requires target != "" && |Split(text, CRLF)| >= 2
    requires RewriteLines(Split(text, CRLF)[..2], target) == Some(newLines)
    ensures RewriteText(text, Some(target)) == Join(newLines + Split(text, CRLF)[2..], CRLF)
  {
  }

  lemma RequestLineKept(line: string, target: string)
    requires line == "GET / HTTP/1.1"
    ensures RewriteLine(line, target) == Some(line)
  {
    assert line[0] == 'G';
    assert line[..6] != "Host: ";
    RewriteLineCases(line, target);
  }

  lemma LocalhostReplaced(line: string, target: string)
    requires line == "Host: localhost"
    ensures RewriteLine(line, target) == Some("Host: " + target)
  {
    WithoutChar("localhost", ':');
    assert line == "Host: " + "localhost";
    BareHostLine("localhost", target);
  }

  lemma GetRequestLines(request: string) returns (parts: seq<string>)
    requires request == "GET / HTTP/1.1\r\nHost: localhost\r\n\r\n"
    ensures parts == ["GET / HTTP/1.1", "Host: localhost", "", ""] && Split(request, CRLF) == parts
  {
    parts := ["GET / HTTP/1.1", "Host: localhost", "", ""];
    JoinFourLines(parts, request);
    SplitOfJoin(request, parts);
  }

  lemma JoinFourLines(parts: seq<string>, text: string)
    requires |parts| == 4 && parts[2] == parts[3] == ""
    requires text == parts[0] + CRLF + parts[1] + CRLF + CRLF
    ensures Join(parts, CRLF) == text
  {
    assert Join(parts[2..], CRLF) == CRLF;
  }

  /** A text written as CR-free lines joined by CRLF splits into those lines. */
  lemma SplitOfJoin(text: string, parts: seq<string>)
    requires |parts| >= 1 && text == Join(parts, CRLF)
    requires forall k, j | 0 <= k < |parts| && 0 <= j < |parts[k]| :: parts[k][j] != '\r'
    ensures Split(text, CRLF) == parts
  {
    forall k | 0 <= k < |parts| ensures !Contains(parts[k], CRLF) {
      WithoutCr(parts[k]);
    }
    CrlfHasNoSelfOverlap();
    SplitJoin(parts, CRLF);
  }

  /** The other unit-test input: four lines with no Host line pass unchanged. */
  lemma PlainLinesExample(plain: string, target: string)
    requires plain == "1\r\n2\r\n3\r\n4" && target == "my.host.com"
    ensures RewriteText(plain, Some(target)) == plain
  {
    var lines := ["1", "2", "3", "4"];
    SplitOfJoin(plain, lines);
    assert OccursAt(plain, CRLF, 1);
    UnchangedCases(plain, Some(target));
  }
}
