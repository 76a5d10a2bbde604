// The record of modes, owners and empty directories that git cannot carry: one
// line of text for each path, printed by one driver and read by another.

module Metadata {
  import opened Text
  import opened Wrappers

  type Mode = m: nat | m < 0x1_0000_0000
  type Int64 = i: int | -0x8000_0000_0000_0000 <= i < 0x8000_0000_0000_0000

  datatype Record = Record(path: string, directory: bool, mode: Mode, uid: Int64, gid: Int64)

  // ------------------------------------------------------------------ numbers

  function Digit(d: nat): (c: char)
    requires d < 10
  {
    "0123456789"[d]
  }

  /** The digit's value, and base or more for any other character. */
  function DigitValue(c: char): nat
  {
    if '0' <= c <= '9' then c as nat - '0' as nat else 10
  }

  function Digits(n: nat, base: nat): (s: string)
    requires 2 <= base <= 10
    decreases n
  {
    if n < base then [Digit(n)] else Digits(n / base, base) + [Digit(n % base)]
  }

  /** The zeros fmt puts before a number shorter than its width. */
  function Padded(s: string, width: nat): string
    decreases width - |s|
  {
    if |s| >= width then s else Padded("0" + s, width)
  }

  /** strconv reads digits from the left. */
  function Value(s: string, base: nat): Option<nat>
    requires 2 <= base <= 10
    decreases |s|
  {
    if s == "" then None
    else
      var last := DigitValue(s[|s| - 1]);
      if last >= base then None
      else if |s| == 1 then Some(last)
      else
        var rest := Value(s[..|s| - 1], base);
        if rest.None? then None else Some(rest.value * base + last)
  }

  predicate AllDigits(s: string, base: nat)
  {
    forall i :: 0 <= i < |s| ==> DigitValue(s[i]) < base
  }

  lemma ValueAppends(front: string, d: nat, base: nat)
    requires 2 <= base <= 10 && d < base
    requires front != "" && Value(front, base).Some?
    ensures Value(front + [Digit(d)], base) == Some(Value(front, base).value * base + d)
  {
    assert (front + [Digit(d)])[..|front|] == front;
  }

  lemma DivMod(n: nat, base: nat)
    requires base >= 2
    ensures n / base * base + n % base == n && (n >= base ==> n / base < n)
  {
  }

  lemma {:induction false} DigitsRead(n: nat, base: nat)
    requires 2 <= base <= 10
    ensures Value(Digits(n, base), base) == Some(n)
    ensures AllDigits(Digits(n, base), base) && Digits(n, base) != ""
    decreases n
  {
    if n >= base {
      var high, low := n / base, n % base;
      DivMod(n, base);
      DigitsRead(high, base);
      ValueAppends(Digits(high, base), low, base);
      assert Digits(n, base) == Digits(high, base) + [Digit(low)];
    }
  }

  lemma {:induction false} ZeroBefore(s: string, base: nat)
    requires 2 <= base <= 10
    requires Value(s, base).Some? && AllDigits(s, base)
    ensures Value("0" + s, base) == Value(s, base) && AllDigits("0" + s, base)
    decreases |s|
  {
    if |s| > 1 {
      ZeroBefore(s[..|s| - 1], base);
      assert ("0" + s)[..|s|] == "0" + s[..|s| - 1];
    } else {
      assert ("0" + s)[..1] == "0";
    }
  }

  lemma {:induction false} PaddedReads(s: string, width: nat, base: nat)
    requires 2 <= base <= 10
    requires Value(s, base).Some? && AllDigits(s, base)
    ensures Value(Padded(s, width), base) == Value(s, base) && AllDigits(Padded(s, width), base)
    decreases width - |s|
  {
    if |s| < width {
      ZeroBefore(s, base);
      PaddedReads("0" + s, width, base);
    }
  }

  /** fmt's %04o. */
  function Octal(mode: Mode): string
  {
    Padded(Digits(mode, 8), 4)
  }

  /** fmt's %d. */
  function Decimal(i: int): string
  {
    if i < 0 then "-" + Digits(-i, 10) else Digits(i, 10)
  }

  /** strconv.ParseUint(s, 8, 32). */
  function ParseMode(s: string): Option<Mode>
  {
    var value := Value(s, 8);
    if value.Some? && value.value < 0x1_0000_0000 then Some(value.value) else None
  }

  /** strconv.Atoi: an optional sign, then digits, within 64 bits. */
  function ParseInt(s: string): Option<Int64>
  {
    var signed := s != "" && (s[0] == '-' || s[0] == '+');
    var size := Value(if signed then s[1..] else s, 10);
    if size.None? then None
    else
      var i: int := if signed && s[0] == '-' then -(size.value as int) else size.value;
      if -0x8000_0000_0000_0000 <= i < 0x8000_0000_0000_0000 then Some(i) else None
  }

  lemma OnlyDigits(s: string, base: nat)
    requires 2 <= base <= 10 && AllDigits(s, base)
    ensures ' ' !in s && '\n' !in s && (s != "" ==> s[0] != '-' && s[0] != '+')
  {
    if s != "" {
      assert DigitValue(s[0]) < base;
    }
    forall c | c in s
      ensures DigitValue(c) < base
    {
      var i :| 0 <= i < |s| && s[i] == c;
    }
  }

  lemma ModeReads(mode: Mode)
    ensures ParseMode(Octal(mode)) == Some(mode)
    ensures ' ' !in Octal(mode) && '\n' !in Octal(mode)
  {
    DigitsRead(mode, 8);
    PaddedReads(Digits(mode, 8), 4, 8);
    OnlyDigits(Octal(mode), 8);
  }

  lemma IntReads(i: int)
    requires -0x8000_0000_0000_0000 <= i < 0x8000_0000_0000_0000
    ensures ParseInt(Decimal(i)) == Some(i)
    ensures i >= 0 ==> ParseInt("+" + Decimal(i)) == Some(i)
    ensures ' ' !in Decimal(i) && '\n' !in Decimal(i)
  {
    var size: nat := if i < 0 then -i else i;
    var s := Digits(size, 10);
    DigitsRead(size, 10);
    OnlyDigits(s, 10);
    SignReads(s, i < 0, size);
    if i >= 0 {
      PlusReads(s, size);
    }
  }

  lemma SignReads(s: string, negative: bool, size: nat)
    requires s != "" && s[0] != '-' && s[0] != '+' && Value(s, 10) == Some(size)
    requires size < 0x8000_0000_0000_0000 || (negative && size == 0x8000_0000_0000_0000)
    ensures ParseInt(if negative then "-" + s else s) == Some(if negative then -(size as int) else size)
  {
    assert ("-" + s)[1..] == s;
  }

  lemma PlusReads(s: string, size: nat)
    requires Value(s, 10) == Some(size) && size < 0x8000_0000_0000_0000
    ensures ParseInt("+" + s) == Some(size)
  {
    assert ("+" + s)[1..] == s;
  }

  // ------------------------------------------------------------------- fields

  /** Where the character first stands, and the length when it does not. */
  function First(s: string, c: char): (i: nat)
    ensures i <= |s| && c !in s[..i]
    ensures i < |s| ==> s[i] == c
    ensures c in s ==> i < |s|
    decreases |s|
  {
    if s == "" || s[0] == c then 0
    else
      var i := First(s[1..], c) + 1;
      assert s[..i] == [s[0]] + s[1..][..i - 1];
      i
  }

  /** strings.SplitN, and strings.Split for n longer than s. */
  function SplitN(s: string, c: char, n: nat): (fields: seq<string>)
    requires n > 0
    ensures 0 < |fields| <= n
    decreases n
  {
    var i := First(s, c);
    if n == 1 || i == |s| then [s] else [s[..i]] + SplitN(s[i + 1..], c, n - 1)
  }

  function Split(s: string, c: char): (fields: seq<string>)
    ensures fields != []
    decreases |s|
  {
    var i := First(s, c);
    if i == |s| then [s] else [s[..i]] + Split(s[i + 1..], c)
  }

  lemma {:induction false} FirstIs(head: string, c: char, tail: string)
    requires c !in head
    ensures First(head + [c] + tail, c) == |head|
    decreases |head|
  {
    if head != "" {
      FirstIs(head[1..], c, tail);
      assert (head + [c] + tail)[1..] == head[1..] + [c] + tail;
    }
  }

  lemma SplitNFirst(head: string, c: char, tail: string, n: nat)
    requires c !in head && n > 1
    ensures SplitN(head + [c] + tail, c, n) == [head] + SplitN(tail, c, n - 1)
  {
    FirstIs(head, c, tail);
    var s := head + [c] + tail;
    assert s[..|head|] == head && s[|head| + 1..] == tail;
  }

  lemma SplitFirst(head: string, c: char, tail: string)
    requires c !in head
    ensures Split(head + [c] + tail, c) == [head] + Split(tail, c)
  {
    FirstIs(head, c, tail);
    var s := head + [c] + tail;
    assert s[..|head|] == head && s[|head| + 1..] == tail;
  }

  // ------------------------------------------------------------------- paths

  /** strings.TrimSuffix(s, "/"). */
  function TrimSlash(s: string): string
  {
    if EndsWith(s, "/") then s[..|s| - 1] else s
  }

  /** How deep a walk along the parts ends, and -1 once it has climbed out of
      where it began. */
  function Depth(parts: seq<string>): (d: int)
    ensures d >= -1
  {
    if parts == [] then 0
    else
      var before, part := Depth(parts[..|parts| - 1]), parts[|parts| - 1];
      if before < 0 || part == "" || part == "." then before
      else if part == ".." then before - 1
      else before + 1
  }

  /** filepath.IsLocal: a path that is not empty, not rooted, and never climbs
      out of the directory it is read in. */
  predicate IsLocal(path: string)
  {
    path != "" && path[0] != '/' && Depth(Split(path, '/')) >= 0
  }

  // ----------------------------------------------------------------- records

  function Name(r: Record): string
  {
    if r.directory then r.path + "/" else r.path
  }

  /** fmt's "%04o %d %d %s". */
  function Format(mode: Mode, uid: Int64, gid: Int64, name: string): string
  {
    Octal(mode) + [' '] + (Decimal(uid) + [' '] + (Decimal(gid) + [' '] + name))
  }

  function Line(r: Record): string
  {
    Format(r.mode, r.uid, r.gid, Name(r))
  }

  /** A mode is printed in octal, an owner in decimal, and a directory with a slash. */
  lemma LinesAsPrinted()
    ensures Line(Record("run", false, 493, -1, 10)) == "0755 -1 10 run"
    ensures Line(Record("empty", true, 448, 0, 99)) == "0700 0 99 empty/"
  {
    assert Digits(61, 8) == "75" && Digits(493, 8) == "755";
    assert Digits(56, 8) == "70" && Digits(448, 8) == "700";
    assert Octal(493) == "0755" && Octal(448) == "0700";
    assert Decimal(10) == "10" && Decimal(99) == "99";
  }

  function Content(records: seq<Record>): string
  {
    if records == [] then ""
    else Content(records[..|records| - 1]) + (Line(records[|records| - 1]) + "\n")
  }

  function ParseLine(line: string): Option<Record>
  {
    var fields := SplitN(line, ' ', 4);
    if |fields| != 4 then None
    else
      var mode, uid, gid := ParseMode(fields[0]), ParseInt(fields[1]), ParseInt(fields[2]);
      var name := TrimSlash(fields[3]);
      if mode.None? || uid.None? || gid.None? || !IsLocal(name) then None
      else Some(Record(name, EndsWith(fields[3], "/"), mode.value, uid.value, gid.value))
  }

  function Read(line: string): seq<Record>
  {
    var one := ParseLine(line);
    if one.Some? then [one.value] else []
  }

  /** What each gives, in order. */
  function Gather<X, Y>(give: X -> seq<Y>, xs: seq<X>): seq<Y>
  {
    if xs == [] then [] else Gather(give, xs[..|xs| - 1]) + give(xs[|xs| - 1])
  }

  function ReadAll(lines: seq<string>): seq<Record>
  {
    Gather(Read, lines)
  }

  function Parsed(content: string): seq<Record>
  {
    ReadAll(Split(content, '\n'))
  }

  method MetadataContent(records: seq<Record>) returns (content: string)
    ensures content == Content(records)
  {
    content := "";
    for i := 0 to |records|
      invariant content == Content(records[..i])
    {
      var name := records[i].path;
      if records[i].directory {
        name := name + "/";
      }
      content := content + (Format(records[i].mode, records[i].uid, records[i].gid, name) + "\n");
      assert records[..i + 1][..i] == records[..i];
      assert content == Content(records[..i]) + (Line(records[i]) + "\n");
    }
    assert records[..|records|] == records;
  }

  method ParseMetadataContent(content: string) returns (records: seq<Record>)
    ensures records == Parsed(content)
  {
    records := [];
    var lines := Split(content, '\n');
    for i := 0 to |lines|
      invariant records == ReadAll(lines[..i])
    {
      GatherOne(Read, lines, i);
      var one := ParseLine(lines[i]);
      if one.Some? {
        records := records + [one.value];
      }
    }
    assert lines[..|lines|] == lines;
  }

  // ---------------------------------------------------------------- the results

  /** The paths whose record survives the text: local, on one line, and no file
      that looks like a directory. */
  predicate Printable(r: Record)
  {
    '\n' !in r.path && IsLocal(r.path) && (r.directory || !EndsWith(r.path, "/"))
  }

  lemma TwoFields(c: string, d: string)
    requires ' ' !in c
    ensures SplitN(c + [' '] + d, ' ', 2) == [c, d]
  {
    SplitNFirst(c, ' ', d, 2);
    assert SplitN(d, ' ', 1) == [d];
  }

  lemma ThreeFields(b: string, c: string, d: string)
    requires ' ' !in b && ' ' !in c
    ensures SplitN(b + [' '] + (c + [' '] + d), ' ', 3) == [b, c, d]
  {
    TwoFields(c, d);
    SplitNFirst(b, ' ', c + [' '] + d, 3);
  }

  lemma FourFields(a: string, b: string, c: string, d: string)
    requires ' ' !in a && ' ' !in b && ' ' !in c
    ensures SplitN(a + [' '] + (b + [' '] + (c + [' '] + d)), ' ', 4) == [a, b, c, d]
  {
    ThreeFields(b, c, d);
    SplitNFirst(a, ' ', b + [' '] + (c + [' '] + d), 4);
  }

  lemma LineFields(r: Record)
    ensures SplitN(Line(r), ' ', 4) == [Octal(r.mode), Decimal(r.uid), Decimal(r.gid), Name(r)]
  {
    ModeReads(r.mode);
    IntReads(r.uid);
    IntReads(r.gid);
    FourFields(Octal(r.mode), Decimal(r.uid), Decimal(r.gid), Name(r));
  }

  lemma LineIsOneLine(r: Record)
    requires '\n' !in r.path
    ensures '\n' !in Line(r)
  {
    ModeReads(r.mode);
    IntReads(r.uid);
    IntReads(r.gid);
  }

  /** One line reads back as the record it printed exactly when the path is one
      the text can carry. */
  lemma LineReads(r: Record)
    ensures Read(Line(r)) == [r] <==> IsLocal(r.path) && (r.directory || !EndsWith(r.path, "/"))
  {
    LineFields(r);
    ModeReads(r.mode);
    IntReads(r.uid);
    IntReads(r.gid);
    if r.directory {
      assert TrimSlash(Name(r)) == r.path;
    }
  }

  lemma GatherOne<X, Y>(give: X -> seq<Y>, xs: seq<X>, i: nat)
    requires i < |xs|
    ensures Gather(give, xs[..i + 1]) == Gather(give, xs[..i]) + give(xs[i])
  {
    assert xs[..i + 1][..i] == xs[..i];
  }

  lemma {:induction false} GatherJoins<X, Y>(give: X -> seq<Y>, a: seq<X>, b: seq<X>)
    ensures Gather(give, a + b) == Gather(give, a) + Gather(give, b)
    decreases |b|
  {
    if b == [] {
      assert a + b == a;
    } else {
      var front := b[..|b| - 1];
      GatherJoins(give, a, front);
      assert (a + b)[..|a + b| - 1] == a + front;
    }
  }

  lemma GatherFirst<X, Y>(give: X -> seq<Y>, x: X, xs: seq<X>)
    ensures Gather(give, [x] + xs) == give(x) + Gather(give, xs)
  {
    GatherJoins(give, [x], xs);
    GatherOne(give, [x], 0);
    assert [x][..1] == [x];
  }

  /** Each gives itself or nothing, so the whole comes back when each does. */
  lemma {:induction false} GatherSame<X>(give: X -> seq<X>, xs: seq<X>)
    requires forall x :: x in xs ==> |give(x)| <= 1
    ensures |Gather(give, xs)| <= |xs|
    ensures Gather(give, xs) == xs <==> forall x :: x in xs ==> give(x) == [x]
  {
    if xs != [] {
      var front, last := xs[..|xs| - 1], xs[|xs| - 1];
      FrontAndLast(xs);
      GatherSame(give, front);
      Pieces(Gather(give, front), give(last), front, last);
    }
  }

  lemma FrontAndLast<X>(xs: seq<X>)
    requires xs != []
    ensures xs == xs[..|xs| - 1] + [xs[|xs| - 1]]
    ensures forall x :: x in xs <==> x in xs[..|xs| - 1] || x == xs[|xs| - 1]
  {
    forall x | x in xs
      ensures x in xs[..|xs| - 1] || x == xs[|xs| - 1]
    {
      var i :| 0 <= i < |xs| && xs[i] == x;
      if i < |xs| - 1 {
        assert xs[..|xs| - 1][i] == x;
      }
    }
  }

  lemma Pieces<X>(kept: seq<X>, piece: seq<X>, front: seq<X>, last: X)
    requires |kept| <= |front| && |piece| <= 1
    ensures kept + piece == front + [last] <==> kept == front && piece == [last]
  {
    if kept + piece == front + [last] {
      assert |piece| == 1;
      assert kept == (kept + piece)[..|front|] == (front + [last])[..|front|] == front;
      assert piece[0] == (kept + piece)[|front|] == last;
    }
  }

  /** The text up to its first newline, and on. */
  lemma Break(before: string, i: nat)
    requires i < |before|
    ensures before == before[..i] + [before[i]] + before[i + 1..]
  {
  }

  lemma Shift(line: string, c: char, rest: string, after: string)
    ensures line + [c] + rest + after == line + [c] + (rest + after)
  {
  }

  /** Text that ends in a newline reads the same whatever follows it. */
  lemma {:induction false} ReadsOn(before: string, after: string)
    requires before == "" || EndsWith(before, "\n")
    ensures Parsed(before + after) == Parsed(before) + Parsed(after)
    decreases |before|
  {
    if before == "" {
      assert before + after == after;
      NothingReads();
    } else {
      var i := FirstNewline(before);
      var line, rest := before[..i], before[i + 1..];
      ReadsOn(rest, after);
      Break(before, i);
      FirstLine(line, rest);
      Shift(line, '\n', rest, after);
      FirstLine(line, rest + after);
      Joined(Read(line), Parsed(rest), Parsed(after));
    }
  }

  lemma Joined(a: seq<Record>, b: seq<Record>, c: seq<Record>)
    ensures a + (b + c) == (a + b) + c
  {
  }

  lemma FirstNewline(s: string) returns (i: nat)
    requires EndsWith(s, "\n")
    ensures i < |s| && s[i] == '\n' && '\n' !in s[..i]
    ensures s[i + 1..] == "" || EndsWith(s[i + 1..], "\n")
  {
    i := First(s, '\n');
    assert s[|s| - 1] == '\n';
  }

  lemma NothingReads()
    ensures Parsed("") == []
  {
    assert Split("", '\n') == [""];
  }

  lemma FirstLine(line: string, after: string)
    requires '\n' !in line
    ensures Parsed(line + ['\n'] + after) == Read(line) + Parsed(after)
  {
    SplitFirst(line, '\n', after);
    GatherFirst(Read, line, Split(after, '\n'));
  }

  /** An unreadable line changes no other line's result. */
  lemma BadLineIsAlone(before: string, line: string, after: string)
    requires before == "" || EndsWith(before, "\n")
    requires '\n' !in line && ParseLine(line).None?
    ensures Parsed(before + (line + ['\n'] + after)) == Parsed(before) + Parsed(after)
  {
    ReadsOn(before, line + ['\n'] + after);
    FirstLine(line, after);
  }

  lemma {:induction false} ContentEnds(records: seq<Record>)
    ensures Content(records) == "" || EndsWith(Content(records), "\n")
  {
  }

  /** What is read is what each line gives, when no path breaks its line. */
  lemma {:induction false} ContentReads(records: seq<Record>)
    requires forall r :: r in records ==> '\n' !in r.path
    ensures Parsed(Content(records)) == Gather(PrintAndRead, records)
  {
    NothingReads();
    if records != [] {
      var front, last := records[..|records| - 1], records[|records| - 1];
      ContentReads(front);
      ContentEnds(front);
      ReadsOn(Content(front), Line(last) + "\n");
      OneLineReads(last);
    }
  }

  lemma OneLineReads(r: Record)
    requires '\n' !in r.path
    ensures Parsed(Line(r) + "\n") == Read(Line(r))
  {
    LineIsOneLine(r);
    FirstLine(Line(r), "");
    NothingReads();
    assert Line(r) + ['\n'] + "" == Line(r) + "\n";
  }

  function PrintAndRead(r: Record): seq<Record>
  {
    Read(Line(r))
  }

  /** No record that was read has a newline in its path. */
  lemma {:induction false} ReadPathsAreLines(lines: seq<string>, r: Record)
    requires forall l :: l in lines ==> '\n' !in l
    requires r in ReadAll(lines)
    ensures '\n' !in r.path
  {
    var last := lines[|lines| - 1];
    if r in ReadAll(lines[..|lines| - 1]) {
      ReadPathsAreLines(lines[..|lines| - 1], r);
    } else {
      FieldsInside(last, ' ', 4, '\n');
    }
  }

  lemma {:induction false} SplitOnBars(s: string, c: char)
    ensures forall f :: f in Split(s, c) ==> c !in f
    decreases |s|
  {
    var i := First(s, c);
    if i < |s| {
      SplitOnBars(s[i + 1..], c);
    } else {
      assert s[..i] == s;
    }
  }

  lemma {:induction false} FieldsInside(s: string, c: char, n: nat, x: char)
    requires n > 0 && x !in s
    ensures forall f :: f in SplitN(s, c, n) ==> x !in f
    decreases n
  {
    var i := First(s, c);
    if n > 1 && i < |s| {
      FieldsInside(s[i + 1..], c, n - 1, x);
    }
  }

  /** Parsing what was printed gives the same records back exactly when every
      path is one the text can carry. */
  lemma RoundTrip(records: seq<Record>)
    ensures Parsed(Content(records)) == records <==> forall r :: r in records ==> Printable(r)
  {
    if broken :| broken in records && '\n' in broken.path {
      if Parsed(Content(records)) == records {
        SplitOnBars(Content(records), '\n');
        ReadPathsAreLines(Split(Content(records), '\n'), broken);
      }
    } else {
      ContentReads(records);
      GatherSame(PrintAndRead, records);
      forall r | r in records
        ensures PrintAndRead(r) == [r] <==> Printable(r)
      {
        LineReads(r);
      }
    }
  }

  /** Where a walk along the parts ends that begins in a directory, by the names from
      the root down to it. */
  function Go(from: seq<string>, parts: seq<string>): seq<string>
  {
    if parts == [] then from
    else
      var at, part := Go(from, parts[..|parts| - 1]), parts[|parts| - 1];
      if part == "" || part == "." then at
      else if part == ".." then (if at == [] then [] else at[..|at| - 1])
      else at + [part]
  }

  /** A walk that has not climbed out is as deep below its start as Depth says. */
  lemma {:induction false} DepthBelow(from: seq<string>, parts: seq<string>)
    requires Depth(parts) >= 0
    ensures from <= Go(from, parts) && |Go(from, parts)| == |from| + Depth(parts)
    ensures forall k :: 0 <= k <= |parts| ==> Depth(parts[..k]) >= 0
  {
    if parts != [] {
      var init := parts[..|parts| - 1];
      DepthBelow(from, init);
      forall k | 0 <= k <= |parts|
        ensures Depth(parts[..k]) >= 0
      {
        if k < |parts| {
          assert parts[..k] == init[..k];
        } else {
          assert parts[..k] == parts;
        }
      }
    }
  }

  /** A path is local exactly when no step of the walk along it leaves the directory
      where it begins. */
  lemma {:induction false} LocalStaysInside(from: seq<string>, parts: seq<string>)
    requires from != []
    ensures Depth(parts) >= 0 <==> forall k :: 0 <= k <= |parts| ==> from <= Go(from, parts[..k])
  {
    if Depth(parts) >= 0 {
      DepthBelow(from, parts);
      forall k | 0 <= k <= |parts|
        ensures from <= Go(from, parts[..k])
      {
        DepthBelow(from, parts[..k]);
      }
    } else {
      var init := parts[..|parts| - 1];
      LocalStaysInside(from, init);
      if Depth(init) >= 0 {
        DepthBelow(from, init);
        assert parts[..|parts|] == parts;
      } else {
        var k :| 0 <= k <= |init| && !(from <= Go(from, init[..k]));
        assert parts[..k] == init[..k];
      }
    }
  }

  /** What the record holds never names a path outside the tree: a path that is read
      is not rooted, and no step of it leaves the directory it is taken in. */
  lemma {:induction false} ReadsStayInside(lines: seq<string>, r: Record, from: seq<string>)
    requires r in ReadAll(lines) && from != []
    ensures IsLocal(r.path) && r.path != "" && r.path[0] != '/'
    ensures var parts := Split(r.path, '/'); forall k :: 0 <= k <= |parts| ==> from <= Go(from, parts[..k])
  {
    LocalStaysInside(from, Split(r.path, '/'));
    if r in ReadAll(lines[..|lines| - 1]) {
      ReadsStayInside(lines[..|lines| - 1], r, from);
    }
  }
}
