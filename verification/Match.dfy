// How a push names the repositories it changed: every way to write a
// repository's URL is reduced to one key.

module Match {
  import opened Text
  import opened Wrappers

  datatype Halves = Halves(before: string, after: string, found: bool)

  /** strings.Cut at the first separator. */
  function Cut(s: string, sep: string): Halves
    decreases |s|
  {
    if StartsWith(s, sep) then Halves("", s[|sep|..], true)
    else if s == "" then Halves("", "", false)
    else
      var rest := Cut(s[1..], sep);
      Halves([s[0]] + rest.before, rest.after, rest.found)
  }

  function TrimLeft(s: string): string
  {
    if s != "" && s[0] == '/' then TrimLeft(s[1..]) else s
  }

  function TrimRight(s: string): string
  {
    if s != "" && s[|s| - 1] == '/' then TrimRight(s[..|s| - 1]) else s
  }

  function TrimGit(s: string): string
  {
    if EndsWith(s, ".git") then s[..|s| - 4] else s
  }

  function LowerChar(c: char): char
  {
    if 'A' <= c <= 'Z' then (c as int - 'A' as int + 'a' as int) as char else c
  }

  function Lower(s: string): (lower: string)
    ensures |lower| == |s|
    ensures forall i :: 0 <= i < |s| ==> lower[i] == LowerChar(s[i])
  {
    seq(|s|, i requires 0 <= i < |s| => LowerChar(s[i]))
  }

  /** A URL without its scheme and its userinfo. */
  function Address(raw: string): string
  {
    var cut := Cut(raw, "://");
    var rest := if cut.found then cut.after else raw;
    var user := Cut(rest, "@");
    if user.found then user.after else rest
  }

  /** Without a scheme, a colon before the first slash starts the path. */
  function Slashed(address: string, scheme: bool): string
  {
    var colon := Cut(address, ":");
    if !scheme && colon.found && '/' !in colon.before then colon.before + "/" + colon.after else address
  }

  /** The key of what is left: the host without its port, lowercased, and the
      path without its edge slashes and its .git. */
  function KeyOf(rest: string): string
  {
    var host := Cut(Cut(rest, "/").before, ":").before;
    var path := TrimGit(TrimRight(TrimLeft(Cut(rest, "/").after)));
    if path == "" then Lower(host) else Lower(host) + "/" + path
  }

  function ComparisonKey(raw: string): string
  {
    KeyOf(Slashed(Address(raw), Cut(raw, "://").found))
  }

  // ------------------------------------------------- the ways to write a URL

  datatype Form =
    | Scheme(scheme: string, user: Option<string>, port: Option<string>)
    | ScpLike(user: Option<string>)
    | Bare

  function Slashes(n: nat): string
  {
    seq(n, _ => '/')
  }

  /** The path as people write it: slashes at its edges, and .git or not. */
  function Written(path: string, lead: nat, git: bool, trail: nat): string
  {
    Slashes(lead) + (path + Suffix(git) + Slashes(trail))
  }

  function Userinfo(user: Option<string>): string
  {
    if user.Some? then user.value + "@" else ""
  }

  function Port(port: Option<string>): string
  {
    if port.Some? then ":" + port.value else ""
  }

  function Url(form: Form, host: string, written: string): string
  {
    match form
    case Scheme(scheme, user, port) => scheme + "://" + (Userinfo(user) + (host + Port(port) + "/" + written))
    case ScpLike(user) => Userinfo(user) + (host + ":" + written)
    case Bare => host + "/" + written
  }

  predicate Plain(s: string)
  {
    '@' !in s && ':' !in s
  }

  predicate WellFormed(form: Form)
  {
    match form
    case Scheme(scheme, user, port) =>
      ':' !in scheme && (user.Some? ==> '@' !in user.value)
      && (port.Some? ==> '@' !in port.value && '/' !in port.value)
    case ScpLike(user) => user.Some? ==> Plain(user.value)
    case Bare => true
  }

  /** A repository: a host, and a path without slashes at its edges. */
  predicate Names(host: string, path: string)
  {
    Plain(host) && '/' !in host && Plain(path)
    && host != "" && path != "" && path[0] != '/' && path[|path| - 1] != '/' && !EndsWith(path, ".git")
  }

  /** The scp-like form has no slash but one before its path, for two make its
      colon read as the end of a scheme. */
  predicate Reads(form: Form, lead: nat)
  {
    form.ScpLike? ==> lead <= 1
  }

  // ------------------------------------------------------------------ cutting

  lemma NotStarts(s: string, prefix: string)
    requires prefix != "" && (s == "" || s[0] != prefix[0])
    ensures !StartsWith(s, prefix)
  {
    if |prefix| <= |s| {
      assert s[..|prefix|][0] == s[0];
    }
  }

  lemma {:induction false} CutAt(head: string, sep: string, tail: string)
    requires sep != "" && sep[0] !in head
    ensures Cut(head + (sep + tail), sep) == Halves(head, tail, true)
    decreases |head|
  {
    var s := head + (sep + tail);
    if head == "" {
      assert s == sep + tail;
      assert s[..|sep|] == sep && s[|sep|..] == tail;
    } else {
      CutAt(head[1..], sep, tail);
      assert s[1..] == head[1..] + (sep + tail);
      assert s[0] == head[0];
      NotStarts(s, sep);
    }
  }

  lemma {:induction false} CutNowhere(s: string, sep: string)
    requires sep != "" && sep[0] !in s
    ensures Cut(s, sep) == Halves(s, "", false)
    decreases |s|
  {
    NotStarts(s, sep);
    if s != "" {
      CutNowhere(s[1..], sep);
      assert s == [s[0]] + s[1..];
    }
  }

  /** One colon opens a scheme's separator exactly when two slashes follow it. */
  lemma CutScheme(head: string, tail: string)
    requires ':' !in head && ':' !in tail
    ensures Cut(head + (":" + tail), "://").found == StartsWith(tail, "//")
    ensures StartsWith(tail, "//") ==> Cut(head + (":" + tail), "://").after == tail[2..]
  {
    if StartsWith(tail, "//") {
      assert ":" + tail == "://" + tail[2..];
      CutAt(head, "://", tail[2..]);
    } else {
      NoScheme(head, tail);
    }
  }

  lemma {:induction false} NoScheme(head: string, tail: string)
    requires ':' !in head && ':' !in tail && !StartsWith(tail, "//")
    ensures !Cut(head + (":" + tail), "://").found
    decreases |head|
  {
    var s := head + (":" + tail);
    if head == "" {
      assert s == ":" + tail && s[1..] == tail;
      ColonOnly(tail);
      CutNowhere(tail, "://");
    } else {
      NoScheme(head[1..], tail);
      assert s[1..] == head[1..] + (":" + tail);
      NotStarts(s, "://");
    }
  }

  lemma ColonOnly(tail: string)
    requires !StartsWith(tail, "//")
    ensures !StartsWith(":" + tail, "://")
  {
    if |tail| >= 2 {
      assert (":" + tail)[..3] == ":" + tail[..2] && "://" == ":" + "//";
      assert (":" + tail)[..3][1..] == tail[..2] && "://"[1..] == "//";
    }
  }

  // ----------------------------------------------------------------- trimming

  lemma {:induction false} TrimLeftSlashes(n: nat, s: string)
    requires s == "" || s[0] != '/'
    ensures TrimLeft(Slashes(n) + s) == s
  {
    var all := Slashes(n) + s;
    if n > 0 {
      TrimLeftSlashes(n - 1, s);
      assert all[1..] == Slashes(n - 1) + s;
    } else {
      assert all == s;
    }
  }

  lemma {:induction false} TrimRightSlashes(s: string, n: nat)
    requires s == "" || s[|s| - 1] != '/'
    ensures TrimRight(s + Slashes(n)) == s
  {
    var all := s + Slashes(n);
    if n > 0 {
      TrimRightSlashes(s, n - 1);
      assert all[..|all| - 1] == s + Slashes(n - 1);
    } else {
      assert all == s;
    }
  }

  /** A left trim stops at the first character that is not a slash. */
  lemma {:induction false} TrimLeftStops(s: string, more: string)
    requires s != "" && s[|s| - 1] != '/'
    ensures TrimLeft(s + more) == TrimLeft(s) + more
    ensures TrimLeft(s) != "" && TrimLeft(s)[|TrimLeft(s)| - 1] == s[|s| - 1] && |TrimLeft(s)| <= |s|
    decreases |s|
  {
    if s[0] == '/' {
      TrimLeftStops(s[1..], more);
      assert (s + more)[1..] == s[1..] + more;
    }
  }

  function Suffix(git: bool): string
  {
    if git then ".git" else ""
  }

  lemma TrimGitSuffix(s: string, git: bool)
    requires s != "" && s[|s| - 1] != '/'
    ensures var t := TrimGit(s + Suffix(git)); if git || !EndsWith(s, ".git") then t == s else |t| <= |s|
    ensures (s + Suffix(git))[|s + Suffix(git)| - 1] != '/'
  {
    if git {
      var all := s + ".git";
      assert all[|all| - 4..] == ".git" && all[..|all| - 4] == s;
    } else {
      assert s + "" == s;
    }
  }

  /** However the path is written, trimming gives it back. */
  lemma TrimWritten(path: string, lead: nat, git: bool, trail: nat)
    requires path != "" && path[0] != '/' && path[|path| - 1] != '/' && !EndsWith(path, ".git")
    ensures TrimGit(TrimRight(TrimLeft(Written(path, lead, git, trail)))) == path
  {
    TrimGitSuffix(path, git);
    TrimLeftSlashes(lead, path + Suffix(git) + Slashes(trail));
    TrimRightSlashes(path + Suffix(git), trail);
  }

  /** What is left of a path that another path is the end of is no longer. */
  lemma TrimShorter(path: string, git: bool, trail: nat)
    requires path != "" && path[|path| - 1] != '/'
    ensures |TrimGit(TrimRight(TrimLeft(path + (Suffix(git) + Slashes(trail)))))| <= |path|
  {
    var bare := TrimLeft(path);
    TrimLeftStops(path, Suffix(git) + Slashes(trail));
    TrimGitSuffix(bare, git);
    TrimRightSlashes(bare + Suffix(git), trail);
    assert bare + (Suffix(git) + Slashes(trail)) == bare + Suffix(git) + Slashes(trail);
  }

  // --------------------------------------------------------------- the results

  function Key(host: string, path: string): string
  {
    Lower(host) + "/" + path
  }

  /** The same letter, or a capital and its own small letter. */
  predicate SameLetter(c: char, d: char)
  {
    c == d
    || ('A' <= c <= 'Z' && d as int == c as int + 32)
    || ('A' <= d <= 'Z' && c as int == d as int + 32)
  }

  predicate SameButForCase(s: string, t: string)
  {
    |s| == |t| && forall i :: 0 <= i < |s| ==> SameLetter(s[i], t[i])
  }

  /** A text lowercased is the same text but for case, with no capital in it. */
  lemma LowerHasNoCapital(s: string)
    ensures SameButForCase(s, Lower(s)) && forall c :: c in Lower(s) ==> !('A' <= c <= 'Z')
  {
    forall c | c in Lower(s)
      ensures !('A' <= c <= 'Z')
    {
      var i :| 0 <= i < |s| && Lower(s)[i] == c;
    }
  }

  /** So two texts are lowercased to one exactly when they differ in case alone. */
  lemma LowerFolds(s: string, t: string)
    ensures Lower(s) == Lower(t) <==> SameButForCase(s, t)
  {
    if Lower(s) == Lower(t) {
      forall i | 0 <= i < |s|
        ensures SameLetter(s[i], t[i])
      {
        assert Lower(s)[i] == Lower(t)[i];
      }
    }
  }

  /** Two repositories have one key exactly when they have one path on one host,
      however the host's letters are cased. */
  lemma KeysTellApart(host: string, path: string, host': string, path': string)
    requires '/' !in host && '/' !in host'
    ensures Key(host, path) == Key(host', path') <==> SameButForCase(host, host') && path == path'
  {
    LowerFolds(host, host');
    if Key(host, path) == Key(host', path') {
      LowerHasNoSlash(host);
      LowerHasNoSlash(host');
      CutAt(Lower(host), "/", path);
      CutAt(Lower(host'), "/", path');
      assert Key(host, path) == Lower(host) + ("/" + path);
      assert Key(host', path') == Lower(host') + ("/" + path');
    }
  }

  lemma LowerHasNoSlash(s: string)
    requires '/' !in s
    ensures '/' !in Lower(s)
  {
    forall c | c in Lower(s)
      ensures c != '/'
    {
      var i :| 0 <= i < |s| && Lower(s)[i] == c;
      assert s[i] in s;
    }
  }

  lemma WrittenPlain(path: string, lead: nat, git: bool, trail: nat)
    requires Plain(path)
    ensures Plain(Written(path, lead, git, trail))
  {
  }

  /** The rest of the work, once the address is host, port and path. */
  lemma AddressKey(host: string, port: Option<string>, written: string)
    requires Plain(host) && '/' !in host
    requires port.Some? ==> '/' !in port.value
    ensures var cut := Cut(host + Port(port) + ("/" + written), "/");
            Cut(cut.before, ":").before == host && cut.after == written
  {
    CutAt(host + Port(port), "/", written);
    if port.Some? {
      CutAt(host, ":", port.value);
      assert host + Port(port) == host + (":" + port.value);
    } else {
      CutNowhere(host, ":");
      assert host + Port(port) == host;
    }
  }

  lemma UserinfoGoes(user: Option<string>, rest: string)
    requires if user.Some? then '@' !in user.value else '@' !in rest
    ensures var cut := Cut(Userinfo(user) + rest, "@");
            (if cut.found then cut.after else Userinfo(user) + rest) == rest
  {
    if user.Some? {
      UserCut(user.value, rest);
    } else {
      CutNowhere(rest, "@");
      assert Userinfo(user) + rest == rest;
    }
  }

  lemma UserCut(user: string, rest: string)
    requires '@' !in user
    ensures Cut(user + "@" + rest, "@") == Halves(user, rest, true)
  {
    CutAt(user, "@", rest);
    assert user + "@" + rest == user + ("@" + rest);
  }

  lemma SchemeKey(form: Form, host: string, written: string)
    requires form.Scheme? && WellFormed(form) && Plain(host) && '/' !in host && Plain(written)
    ensures var raw := Url(form, host, written);
            Cut(raw, "://").found && Address(raw) == host + Port(form.port) + ("/" + written)
  {
    var address := host + Port(form.port) + ("/" + written);
    CutAt(form.scheme, "://", Userinfo(form.user) + address);
    assert host + Port(form.port) + "/" + written == address;
    assert form.scheme + "://" + (Userinfo(form.user) + address)
      == form.scheme + ("://" + (Userinfo(form.user) + address));
    UserinfoGoes(form.user, address);
  }

  lemma ScpLikeKey(form: Form, host: string, written: string)
    requires form.ScpLike? && WellFormed(form) && Plain(host) && '/' !in host && Plain(written)
    ensures var raw := Url(form, host, written);
            Cut(raw, "://").found == StartsWith(written, "//")
            && (if StartsWith(written, "//") then Address(raw) == written[2..]
                else Slashed(Address(raw), false) == host + Port(None) + ("/" + written))
  {
    var raw := Url(form, host, written);
    assert raw == Userinfo(form.user) + host + (":" + written) == Userinfo(form.user) + (host + (":" + written));
    CutScheme(Userinfo(form.user) + host, written);
    if StartsWith(written, "//") {
      CutNowhere(written[2..], "@");
    } else {
      UserinfoGoes(form.user, host + (":" + written));
      ScpLikeSlashed(host, written);
    }
  }

  lemma ScpLikeSlashed(host: string, written: string)
    requires ':' !in host && '/' !in host
    ensures Slashed(host + (":" + written), false) == host + Port(None) + ("/" + written)
  {
    CutAt(host, ":", written);
    assert host + "/" + written == host + Port(None) + ("/" + written);
  }

  lemma BareKey(host: string, written: string)
    requires Plain(host) && '/' !in host && Plain(written)
    ensures var raw := Url(Bare, host, written);
            !Cut(raw, "://").found && Slashed(Address(raw), false) == host + Port(None) + ("/" + written)
  {
    var raw := Url(Bare, host, written);
    CutNowhere(raw, "://");
    CutNowhere(raw, "@");
    CutNowhere(raw, ":");
    assert raw == host + Port(None) + ("/" + written);
  }

  /** Every way to write one repository's URL makes one key, its lowercased host
      and its path, but for the scp-like form with two slashes or more before
      the path. */
  lemma AllFormsAgree(form: Form, host: string, path: string, lead: nat, git: bool, trail: nat)
    requires WellFormed(form) && Names(host, path)
    ensures ComparisonKey(Url(form, host, Written(path, lead, git, trail))) == Key(host, path) <==> Reads(form, lead)
  {
    var written := Written(path, lead, git, trail);
    WrittenPlain(path, lead, git, trail);
    TrimWritten(path, lead, git, trail);
    LeadingSlashes(path, lead, git, trail);
    match form
    case Scheme(_, _, port) =>
      SchemeKey(form, host, written);
      AddressKey(host, port, written);
    case ScpLike(_) =>
      ScpLikeKey(form, host, written);
      if lead <= 1 {
        AddressKey(host, None, written);
      } else {
        LostHost(host, path, lead - 2, git, trail);
      }
    case Bare =>
      BareKey(host, written);
      AddressKey(host, None, written);
  }

  lemma {:induction false} SlashesTrimmed(n: nat)
    ensures TrimLeft(Slashes(n)) == ""
  {
    if n > 0 {
      assert Slashes(n)[1..] == Slashes(n - 1);
      SlashesTrimmed(n - 1);
    }
  }

  /** A URL with no path is known by its host alone, and by no repository's key. */
  lemma HostAlone(form: Form, host: string, slashes: nat)
    requires WellFormed(form) && Plain(host) && '/' !in host && Reads(form, slashes)
    ensures ComparisonKey(Url(form, host, Slashes(slashes))) == Lower(host)
    ensures forall host', path :: Lower(host) != Key(host', path)
  {
    SlashesTrimmed(slashes);
    forall host', path
      ensures Lower(host) != Key(host', path)
    {
      NoPathNoKey(host, host', path);
    }
    match form
    case Scheme(_, _, port) =>
      SchemeKey(form, host, Slashes(slashes));
      AddressKey(host, port, Slashes(slashes));
    case ScpLike(_) =>
      ScpLikeKey(form, host, Slashes(slashes));
      AddressKey(host, None, Slashes(slashes));
    case Bare =>
      BareKey(host, Slashes(slashes));
      AddressKey(host, None, Slashes(slashes));
  }

  /** A push and a volume that write their repositories in any two of the forms
      match exactly when they name one path on one host, but for the host's case. */
  lemma FormsMatch(form: Form, host: string, path: string, lead: nat, git: bool, trail: nat,
                   form': Form, host': string, path': string, lead': nat, git': bool, trail': nat)
    requires WellFormed(form) && Names(host, path) && Reads(form, lead)
    requires WellFormed(form') && Names(host', path') && Reads(form', lead')
    ensures ComparisonKey(Url(form, host, Written(path, lead, git, trail)))
            == ComparisonKey(Url(form', host', Written(path', lead', git', trail')))
            <==> SameButForCase(host, host') && path == path'
  {
    AllFormsAgree(form, host, path, lead, git, trail);
    AllFormsAgree(form', host', path', lead', git', trail');
    KeysTellApart(host, path, host', path');
  }

  lemma LeadingSlashes(path: string, lead: nat, git: bool, trail: nat)
    requires path != "" && path[0] != '/'
    ensures StartsWith(Written(path, lead, git, trail), "//") <==> lead >= 2
    ensures lead >= 2 ==> Written(path, lead, git, trail)[2..] == Written(path, lead - 2, git, trail)
  {
    var written := Written(path, lead, git, trail);
    if lead >= 2 {
      assert written[..2] == "//";
      assert Slashes(lead)[2..] == Slashes(lead - 2);
    } else {
      assert written[lead] == path[0];
      NoTwoSlashes(written, lead);
    }
  }

  lemma NoTwoSlashes(s: string, i: nat)
    requires i < 2 && i < |s| && s[i] != '/'
    ensures !StartsWith(s, "//")
  {
    if |s| >= 2 {
      assert s[..2][i] == s[i];
    }
  }

  lemma {:induction false} CutOne(s: string, c: char)
    ensures var cut := Cut(s, [c]);
            c !in cut.before && (if cut.found then s == cut.before + ([c] + cut.after) else s == cut.before)
    decreases |s|
  {
    if s != "" && s[0] != c {
      NotStarts(s, [c]);
      CutOne(s[1..], c);
      assert s == [s[0]] + s[1..];
    }
  }

  /** A key without a path holds no slash. */
  lemma NoPathNoKey(bare: string, host: string, path: string)
    requires '/' !in bare
    ensures Lower(bare) != Key(host, path)
  {
    LowerHasNoSlash(bare);
    assert Key(host, path)[|host|] == '/';
  }

  /** With its host read as a scheme, the URL makes some other key. */
  lemma LostHost(host: string, path: string, lead: nat, git: bool, trail: nat)
    requires Names(host, path)
    ensures KeyOf(Written(path, lead, git, trail)) != Key(host, path)
  {
    var written, end := Written(path, lead, git, trail), Suffix(git) + Slashes(trail);
    if lead > 0 {
      assert written == "" + ("/" + written[1..]);
      CutAt("", "/", written[1..]);
      assert Key(host, path)[0] == LowerChar(host[0]) != '/';
    } else {
      assert written == path + end;
      CutOne(path, '/');
      if Cut(path, "/").found {
        LostHead(host, path, Cut(path, "/").before, Cut(path, "/").after, git, trail);
      } else {
        LostPath(host, path, git, trail);
      }
    }
  }

  /** A path of several parts: its first part is taken for the host. */
  lemma LostHead(host: string, path: string, head: string, rest: string, git: bool, trail: nat)
    requires Names(host, path) && path == head + ("/" + rest) && '/' !in head
    ensures KeyOf(path + (Suffix(git) + Slashes(trail))) != Key(host, path)
  {
    var end := Suffix(git) + Slashes(trail);
    assert path[|path| - 1] == ("/" + rest)[|rest|];
    assert path + end == head + ("/" + (rest + end));
    CutAt(head, "/", rest + end);
    CutNowhere(head, ":");
    TrimShorter(rest, git, trail);
    var left := TrimGit(TrimRight(TrimLeft(rest + end)));
    if left == "" {
      NoPathNoKey(head, host, path);
    } else {
      KeysTellApart(head, left, host, path);
    }
  }

  /** A text of one part, with slashes after it or not, is all host. */
  lemma OnePart(bare: string, trail: nat)
    requires '/' !in bare && ':' !in bare
    ensures KeyOf(bare + Slashes(trail)) == Lower(bare)
  {
    CutNowhere(bare, ":");
    if trail == 0 {
      assert bare + Slashes(trail) == bare;
      CutNowhere(bare, "/");
    } else {
      assert bare + Slashes(trail) == bare + ("/" + Slashes(trail - 1));
      CutAt(bare, "/", Slashes(trail - 1));
      SlashesTrimmed(trail - 1);
    }
  }

  /** A path of one part: the whole of it is taken for the host. */
  lemma LostPath(host: string, path: string, git: bool, trail: nat)
    requires Names(host, path) && '/' !in path
    ensures KeyOf(path + (Suffix(git) + Slashes(trail))) != Key(host, path)
  {
    var bare := path + Suffix(git);
    assert '/' !in bare && ':' !in bare;
    OnePart(bare, trail);
    NoPathNoKey(bare, host, path);
    assert path + (Suffix(git) + Slashes(trail)) == bare + Slashes(trail);
  }
}
