/** The peer list: `id=addr` parts separated by commas, read from the environment at start-up. */
module Peers {
  import opened Wrappers
  import opened Types

  datatype PeersError = InvalidEntry | InvalidId

  /** Unicode's White_Space property, which `trim` goes by. */
  predicate IsWhite(c: char) {
    || '\U{9}' <= c <= '\U{d}' || c == ' ' || c == '\U{85}' || c == '\U{a0}' || c == '\U{1680}'
    || '\U{2000}' <= c <= '\U{200a}' || c == '\U{2028}' || c == '\U{2029}' || c == '\U{202f}'
    || c == '\U{205f}' || c == '\U{3000}'
  }

  predicate AllWhite(s: string) {
    forall i | 0 <= i < |s| :: IsWhite(s[i])
  }

  function TrimStart(s: string): string {
    if s != "" && IsWhite(s[0]) then TrimStart(s[1..]) else s
  }

  function TrimEnd(s: string): string {
    if s != "" && IsWhite(s[|s| - 1]) then TrimEnd(s[..|s| - 1]) else s
  }

  function Trim(s: string): string {
    TrimEnd(TrimStart(s))
  }

  /** The parts between separators; always at least one. */
  function Split(s: string, sep: char): (parts: seq<string>)
    ensures parts != []
  {
    if s == "" then [""]
    else
      var rest := Split(s[1..], sep);
      if s[0] == sep then [""] + rest else [[s[0]] + rest[0]] + rest[1..]
  }

  function SplitOnce(s: string, sep: char): Option<(string, string)> {
    if s == "" then None
    else if s[0] == sep then Some(("", s[1..]))
    else match SplitOnce(s[1..], sep)
      case None => None
      case Some((a, b)) => Some(([s[0]] + a, b))
  }

  predicate IsDigit(c: char) {
    '0' <= c <= '9'
  }

  predicate AllDigits(s: string) {
    forall i | 0 <= i < |s| :: IsDigit(s[i])
  }

  function Value(digits: string): nat
    requires AllDigits(digits)
  {
    if digits == "" then 0 else
      assert IsDigit(digits[|digits| - 1]);
      Value(digits[..|digits| - 1]) * 10 + (digits[|digits| - 1] as int - '0' as int)
  }

  /** `u64::from_str`: an optional `+`, then at least one digit, and no overflow. */
  function ParseU64(s: string): Option<u64> {
    var digits := if s != "" && s[0] == '+' then s[1..] else s;
    if digits != "" && AllDigits(digits) && Value(digits) < U64 then Some(Value(digits)) else None
  }

  function ParsePart(part: string): Result<(u64, string), PeersError> {
    match SplitOnce(part, '=')
    case None => Err(InvalidEntry)
    case Some((id, addr)) =>
      match ParseU64(Trim(id))
      case None => Err(InvalidId)
      case Some(n) => Ok((n, Trim(addr)))
  }

  /** Collects the parts in order: the last of two equal ids wins, and the first bad part stops the process. */
  function Collect(parts: seq<string>, peers: map<u64, string>): Result<map<u64, string>, PeersError>
    decreases |parts|
  {
    if parts == [] then Ok(peers)
    else if Trim(parts[0]) == "" then Collect(parts[1..], peers)
    else
      var pair :- ParsePart(parts[0]);
      Collect(parts[1..], peers[pair.0 := pair.1])
  }

  function ParsePeers(s: string): Result<map<u64, string>, PeersError> {
    Collect(Split(s, ','), map[])
  }

  // Printing.

  function Digit(d: nat): char
    requires d < 10
  {
    ('0' as int + d) as char
  }

  function Show(n: nat): string {
    if n < 10 then [Digit(n)] else Show(n / 10) + [Digit(n % 10)]
  }

  function Join(parts: seq<string>, sep: char): string {
    if parts == [] then ""
    else if |parts| == 1 then parts[0] else parts[0] + [sep] + Join(parts[1..], sep)
  }

  /** A part of a peer list: white space, or a peer with white space around its id and its address. */
  datatype Part = Blank(white: string) | Peer(w1: string, id: u64, w2: string, w3: string, addr: string, w4: string)

  predicate Trimmed(s: string) {
    s == "" || (!IsWhite(s[0]) && !IsWhite(s[|s| - 1]))
  }

  predicate NoComma(s: string) {
    forall i | 0 <= i < |s| :: s[i] != ','
  }

  predicate PartOk(p: Part) {
    match p
    case Blank(w) => AllWhite(w)
    case Peer(w1, _, w2, w3, addr, w4) =>
      AllWhite(w1) && AllWhite(w2) && AllWhite(w3) && AllWhite(w4) && Trimmed(addr) && NoComma(addr)
  }

  function Text(p: Part): string {
    match p
    case Blank(w) => w
    case Peer(w1, id, w2, w3, addr, w4) => (w1 + Show(id) + w2) + "=" + (w3 + addr + w4)
  }

  function Texts(ps: seq<Part>): (ts: seq<string>)
    ensures |ts| == |ps|
  {
    if ps == [] then [] else [Text(ps[0])] + Texts(ps[1..])
  }

  /** The map a list of parts stands for; a later peer replaces an earlier one of the same id. */
  function Meaning(ps: seq<Part>, peers: map<u64, string>): map<u64, string>
    decreases |ps|
  {
    if ps == [] then peers
    else Meaning(ps[1..], if ps[0].Peer? then peers[ps[0].id := ps[0].addr] else peers)
  }

  // White space.

  lemma {:induction false} TrimStartSkips(w: string, s: string)
    requires AllWhite(w)
    ensures TrimStart(w + s) == TrimStart(s)
    decreases |w|
  {
    if w == "" {
      assert w + s == s;
    } else {
      assert (w + s)[1..] == w[1..] + s;
      TrimStartSkips(w[1..], s);
    }
  }

  lemma {:induction false} TrimEndSkips(s: string, w: string)
    requires AllWhite(w)
    ensures TrimEnd(s + w) == TrimEnd(s)
    decreases |w|
  {
    if w == "" {
      assert s + w == s;
    } else {
      assert (s + w)[..|s + w| - 1] == s + w[..|w| - 1];
      TrimEndSkips(s, w[..|w| - 1]);
    }
  }

  lemma TrimAround(w: string, s: string, w': string)
    requires AllWhite(w) && AllWhite(w') && Trimmed(s)
    ensures Trim(w + s + w') == s
  {
    if s == "" {
      assert w + s + w' == (w + w') + "";
      TrimStartSkips(w + w', "");
    } else {
      assert w + s + w' == w + (s + w');
      TrimStartSkips(w, s + w');
      assert (s + w')[0] == s[0];
      TrimEndSkips(s, w');
    }
  }

  lemma {:induction false} TrimKeepsInk(s: string, i: nat)
    requires i < |s| && !IsWhite(s[i])
    ensures Trim(s) != ""
  {
    TrimStartKeepsInk(s, i);
  }

  lemma {:induction false} TrimStartKeepsInk(s: string, i: nat)
    requires i < |s| && !IsWhite(s[i])
    ensures TrimEnd(TrimStart(s)) != ""
    decreases |s|
  {
    if IsWhite(s[0]) {
      TrimStartKeepsInk(s[1..], i - 1);
    } else {
      TrimEndKeepsInk(s, i);
    }
  }

  lemma {:induction false} TrimEndKeepsInk(s: string, i: nat)
    requires i < |s| && !IsWhite(s[i])
    ensures TrimEnd(s) != ""
    decreases |s|
  {
    if IsWhite(s[|s| - 1]) {
      TrimEndKeepsInk(s[..|s| - 1], i);
    }
  }

  // Separators.

  lemma {:induction false} SplitOnceFirst(a: string, sep: char, b: string)
    requires forall i | 0 <= i < |a| :: a[i] != sep
    ensures SplitOnce(a + [sep] + b, sep) == Some((a, b))
    decreases |a|
  {
    var s := a + [sep] + b;
    if a == "" {
      assert s == [sep] + b;
    } else {
      assert s[1..] == a[1..] + [sep] + b;
      SplitOnceFirst(a[1..], sep, b);
      assert [a[0]] + a[1..] == a;
    }
  }

  lemma {:induction false} SplitNone(t: string, sep: char)
    requires forall i | 0 <= i < |t| :: t[i] != sep
    ensures Split(t, sep) == [t]
  {
    if t != "" {
      SplitNone(t[1..], sep);
      assert [t[0]] + t[1..] == t;
    }
  }

  lemma {:induction false} SplitFirst(t: string, sep: char, rest: string)
    requires forall i | 0 <= i < |t| :: t[i] != sep
    ensures Split(t + [sep] + rest, sep) == [t] + Split(rest, sep)
    decreases |t|
  {
    var s := t + [sep] + rest;
    if t == "" {
      assert s == [sep] + rest;
      assert s[1..] == rest;
    } else {
      assert s[1..] == t[1..] + [sep] + rest;
      SplitFirst(t[1..], sep, rest);
      assert [t[0]] + t[1..] == t;
    }
  }

  lemma {:induction false} SplitJoin(parts: seq<string>, sep: char)
    requires parts != [] && forall k | 0 <= k < |parts| :: forall i | 0 <= i < |parts[k]| :: parts[k][i] != sep
    ensures Split(Join(parts, sep), sep) == parts
    decreases |parts|
  {
    if |parts| == 1 {
      SplitNone(parts[0], sep);
    } else {
      SplitJoin(parts[1..], sep);
      SplitFirst(parts[0], sep, Join(parts[1..], sep));
    }
  }

  // Numbers.

  lemma {:induction false} ShowParses(n: nat)
    ensures Show(n) != "" && AllDigits(Show(n))
    ensures Value(Show(n)) == n
  {
    if n < 10 {
      assert Show(n)[..0] == "";
    } else {
      ShowParses(n / 10);
      assert Show(n)[..|Show(n)| - 1] == Show(n / 10);
    }
  }

  lemma ShowIsInk(n: u64)
    ensures Trimmed(Show(n)) && ParseU64(Show(n)) == Some(n)
    ensures forall i | 0 <= i < |Show(n)| :: Show(n)[i] != '=' && Show(n)[i] != ',' && !IsWhite(Show(n)[i])
  {
    ShowParses(n);
    forall i | 0 <= i < |Show(n)| ensures Show(n)[i] != '=' && Show(n)[i] != ',' && !IsWhite(Show(n)[i]) {
      assert IsDigit(Show(n)[i]);
    }
    assert IsDigit(Show(n)[0]);
  }

  // Parts.

  lemma PeerParses(p: Part)
    requires p.Peer? && PartOk(p)
    ensures ParsePart(Text(p)) == Ok((p.id, p.addr)) && Trim(Text(p)) != "" && NoComma(Text(p))
  {
    ShowIsInk(p.id);
    hide Show, ParseU64;
    var left, right := p.w1 + Show(p.id) + p.w2, p.w3 + p.addr + p.w4;
    SplitOnceFirst(left, '=', right);
    TrimAround(p.w1, Show(p.id), p.w2);
    TrimAround(p.w3, p.addr, p.w4);
    assert Text(p)[|left|] == '=';
    TrimKeepsInk(Text(p), |left|);
  }

  lemma BlankIsSkipped(w: string)
    requires AllWhite(w)
    ensures Trim(w) == "" && NoComma(w)
  {
    TrimAround(w, "", "");
    assert w + "" + "" == w;
  }

  lemma {:induction false} CollectMeans(ps: seq<Part>, peers: map<u64, string>)
    requires forall k | 0 <= k < |ps| :: PartOk(ps[k])
    ensures Collect(Texts(ps), peers) == Ok(Meaning(ps, peers))
    ensures forall k | 0 <= k < |ps| :: NoComma(Texts(ps)[k])
    decreases |ps|
  {
    if ps != [] {
      var p := ps[0];
      if p.Peer? {
        PeerParses(p);
        CollectMeans(ps[1..], peers[p.id := p.addr]);
      } else {
        BlankIsSkipped(p.white);
        CollectMeans(ps[1..], peers);
      }
    }
  }

  /** Any well-formed list parses to what it means: blanks and surrounding white space change nothing, the last id wins. */
  lemma ParsesToMeaning(ps: seq<Part>)
    requires forall k | 0 <= k < |ps| :: PartOk(ps[k])
    ensures ParsePeers(Join(Texts(ps), ',')) == Ok(Meaning(ps, map[]))
  {
    if ps == [] {
      BlankIsSkipped("");
    } else {
      CollectMeans(ps, map[]);
      SplitJoin(Texts(ps), ',');
    }
  }

  // Any text at all: what is accepted, and what is wrong with the rest.

  /** The parts are what stands between the separators. */
  lemma {:induction false} SplitIsExact(s: string, sep: char)
    ensures Join(Split(s, sep), sep) == s
    ensures forall k | 0 <= k < |Split(s, sep)| :: forall i | 0 <= i < |Split(s, sep)[k]| :: Split(s, sep)[k][i] != sep
    decreases |s|
  {
    if s != "" {
      SplitIsExact(s[1..], sep);
      var rest, parts := Split(s[1..], sep), Split(s, sep);
      if s[0] == sep {
        assert parts[1..] == rest;
        assert "" + [sep] + Join(rest, sep) == s;
      } else {
        assert parts[1..] == rest[1..];
        if |rest| > 1 {
          assert [s[0]] + rest[0] + [sep] + Join(rest[1..], sep) == [s[0]] + (rest[0] + [sep] + Join(rest[1..], sep));
        }
        assert [s[0]] + s[1..] == s;
      }
    }
  }

  lemma {:induction false} SplitOnceIff(s: string, sep: char)
    ensures SplitOnce(s, sep).None? <==> forall i | 0 <= i < |s| :: s[i] != sep
    ensures SplitOnce(s, sep).Some? ==>
              var (a, b) := SplitOnce(s, sep).value;
              s == a + [sep] + b && forall i | 0 <= i < |a| :: a[i] != sep
    decreases |s|
  {
    if s != "" {
      SplitOnceIff(s[1..], sep);
      if s[0] == sep {
        assert s == "" + [sep] + s[1..];
      } else if SplitOnce(s[1..], sep).Some? {
        var (a, b) := SplitOnce(s[1..], sep).value;
        assert s == ([s[0]] + a) + [sep] + b;
        assert s[|a| + 1] == sep;
      } else {
        assert forall i | 0 <= i < |s| :: i > 0 ==> s[i] == s[1..][i - 1];
      }
    }
  }

  lemma BlankIff(s: string)
    ensures Trim(s) == "" <==> AllWhite(s)
  {
    if AllWhite(s) {
      BlankIsSkipped(s);
    } else {
      var i :| 0 <= i < |s| && !IsWhite(s[i]);
      TrimKeepsInk(s, i);
    }
  }

  function Zeros(n: nat): string {
    seq(n, _ => '0')
  }

  lemma {:induction false} DigitsAre(d: string) returns (zeros: nat)
    requires d != "" && AllDigits(d)
    ensures d == Zeros(zeros) + Show(Value(d))
    decreases |d|
  {
    var front, last := d[..|d| - 1], d[|d| - 1];
    assert d == front + [last];
    assert IsDigit(last);
    var digit := last as int - '0' as int;
    if front == "" {
      zeros := 0;
      assert Value(front) == 0 && Value(d) == digit && Show(digit) == [last];
      assert d == [last] && Zeros(0) == "";
    } else {
      var z := DigitsAre(front);
      var v := Value(front);
      assert Value(d) == v * 10 + digit;
      if v == 0 {
        zeros := z + 1;
        assert Show(0) == "0";
        assert d == Zeros(z) + "0" + [last];
        assert Zeros(z + 1) == Zeros(z) + "0";
      } else {
        zeros := z;
        assert Show(v * 10 + digit) == Show(v) + [last];
        assert d == Zeros(z) + (Show(v) + [last]);
      }
    }
  }

  lemma {:induction false} ZerosAddNothing(zeros: nat, d: string)
    requires d != "" && AllDigits(d)
    ensures AllDigits(Zeros(zeros) + d) && Value(Zeros(zeros) + d) == Value(d)
    decreases |d|
  {
    var s, front := Zeros(zeros) + d, d[..|d| - 1];
    assert s[..|s| - 1] == Zeros(zeros) + front && s[|s| - 1] == d[|d| - 1];
    if front == "" {
      ZerosAreZero(zeros);
      assert Zeros(zeros) + front == Zeros(zeros);
    } else {
      ZerosAddNothing(zeros, front);
    }
  }

  lemma {:induction false} ZerosAreZero(zeros: nat)
    ensures Value(Zeros(zeros)) == 0
  {
    if zeros > 0 {
      assert Zeros(zeros)[..zeros - 1] == Zeros(zeros - 1);
      ZerosAreZero(zeros - 1);
    }
  }

  /** A number is written as its decimal digits, with any zeros before them and at most one plus in front. */
  ghost predicate Spells(s: string, n: u64) {
    exists zeros: nat :: s == Zeros(zeros) + Show(n) || s == "+" + (Zeros(zeros) + Show(n))
  }

  lemma ParsedIsSpelt(s: string, n: u64)
    requires ParseU64(s) == Some(n)
    ensures Spells(s, n)
  {
    var plus := s != "" && s[0] == '+';
    var d := if plus then s[1..] else s;
    var zeros := DigitsAre(d);
    assert plus ==> s == "+" + d;
  }

  lemma SpeltIsParsed(s: string, n: u64, zeros: nat)
    requires s == Zeros(zeros) + Show(n) || s == "+" + (Zeros(zeros) + Show(n))
    ensures ParseU64(s) == Some(n)
  {
    var d := Zeros(zeros) + Show(n);
    ShowParses(n);
    ZerosAddNothing(zeros, Show(n));
    hide Show, Zeros, Value;
    assert d != "" && IsDigit(d[0]);
    assert s == "+" + d ==> s[1..] == d;
  }

  /** The number parsed is `n` if and only if that is what is written. */
  lemma ParseU64Iff(s: string, n: u64)
    ensures ParseU64(s) == Some(n) <==> Spells(s, n)
  {
    if ParseU64(s) == Some(n) {
      ParsedIsSpelt(s, n);
    }
    hide ParseU64;
    if Spells(s, n) {
      var zeros: nat :| s == Zeros(zeros) + Show(n) || s == "+" + (Zeros(zeros) + Show(n));
      SpeltIsParsed(s, n, zeros);
    }
  }

  /** The part names a peer: its first `=` has a number before it, white space aside. */
  ghost predicate NamesPeer(part: string, e: nat) {
    && e < |part| && part[e] == '=' && (forall i | 0 <= i < e :: part[i] != '=')
    && exists n: u64 :: Spells(Trim(part[..e]), n)
  }

  lemma PartIff(part: string)
    ensures ParsePart(part).Ok? <==> exists e: nat :: NamesPeer(part, e)
    ensures forall e: nat, n: u64 | NamesPeer(part, e) && Spells(Trim(part[..e]), n) ::
              ParsePart(part) == Ok((n, Trim(part[e + 1..])))
    ensures ParsePart(part).Err? ==> ParsePart(part).error == if '=' in part then InvalidId else InvalidEntry
  {
    SplitOnceIff(part, '=');
    match SplitOnce(part, '=')
    case None =>
    case Some((id, addr)) =>
      assert part[|id|] == '=' && part[..|id|] == id && part[|id| + 1..] == addr;
      forall e: nat, n: u64 | NamesPeer(part, e) && Spells(Trim(part[..e]), n)
        ensures ParsePart(part) == Ok((n, Trim(part[e + 1..])))
      {
        assert e == |id|;
        ParseU64Iff(Trim(id), n);
      }
      forall e: nat | NamesPeer(part, e) ensures ParsePart(part).Ok? {
        var n: u64 :| Spells(Trim(part[..e]), n);
      }
      if ParseU64(Trim(id)).Some? {
        ParseU64Iff(Trim(id), ParseU64(Trim(id)).value);
        assert NamesPeer(part, |id|);
      }
  }

  ghost predicate PartFine(part: string) {
    AllWhite(part) || exists e: nat :: NamesPeer(part, e)
  }

  ghost predicate AllFine(parts: seq<string>) {
    forall k | 0 <= k < |parts| :: PartFine(parts[k])
  }

  lemma {:induction false} CollectIff(parts: seq<string>, peers: map<u64, string>)
    ensures Collect(parts, peers).Ok? <==> AllFine(parts)
    decreases |parts|
  {
    if parts == [] {
      assert AllFine(parts);
    } else {
      BlankIff(parts[0]);
      PartIff(parts[0]);
      hide Trim, ParsePart, PartFine, AllFine, NamesPeer, AllWhite;
      if Trim(parts[0]) == "" {
        CollectIff(parts[1..], peers);
        FineIff(parts);
      } else if ParsePart(parts[0]).Ok? {
        CollectIff(parts[1..], peers[ParsePart(parts[0]).value.0 := ParsePart(parts[0]).value.1]);
        FineIff(parts);
      } else {
        FineIff(parts);
      }
    }
  }

  lemma FineIff(parts: seq<string>)
    requires parts != []
    ensures AllFine(parts) <==> PartFine(parts[0]) && AllFine(parts[1..])
    ensures PartFine(parts[0]) <==> AllWhite(parts[0]) || exists e: nat :: NamesPeer(parts[0], e)
  {
    if PartFine(parts[0]) && AllFine(parts[1..]) {
      forall k | 0 <= k < |parts| ensures PartFine(parts[k]) {
        assert k > 0 ==> parts[k] == parts[1..][k - 1];
      }
    }
    if AllFine(parts) {
      forall k | 0 <= k < |parts| - 1 ensures PartFine(parts[1..][k]) {
        assert parts[1..][k] == parts[k + 1];
      }
    }
  }

  /** A list is accepted if and only if each part between its commas is blank or names a peer. */
  lemma ParsesIff(s: string)
    ensures ParsePeers(s).Ok? <==> AllFine(Split(s, ','))
  {
    CollectIff(Split(s, ','), map[]);
  }

  lemma CollectStep(parts: seq<string>, peers: map<u64, string>)
    requires parts != [] && PartFine(parts[0])
    ensures exists next :: Collect(parts, peers) == Collect(parts[1..], next)
  {
    BlankIff(parts[0]);
    PartIff(parts[0]);
    if Trim(parts[0]) == "" {
      assert Collect(parts, peers) == Collect(parts[1..], peers);
    } else {
      var pair := ParsePart(parts[0]).value;
      assert Collect(parts, peers) == Collect(parts[1..], peers[pair.0 := pair.1]);
    }
  }

  /** What is wrong with a list is what is wrong with its first bad part: no `=`, or no number before it. */
  lemma {:induction false} FirstBadPart(parts: seq<string>, peers: map<u64, string>, k: nat)
    requires k < |parts| && !PartFine(parts[k]) && forall i | 0 <= i < k :: PartFine(parts[i])
    ensures Collect(parts, peers) == Err(if '=' in parts[k] then InvalidId else InvalidEntry)
    decreases |parts|
  {
    if k == 0 {
      BlankIff(parts[0]);
      PartIff(parts[0]);
    } else {
      CollectStep(parts, peers);
      hide Collect, PartFine;
      var next :| Collect(parts, peers) == Collect(parts[1..], next);
      assert forall i | 0 <= i < k - 1 :: parts[1..][i] == parts[i + 1];
      FirstBadPart(parts[1..], next, k - 1);
    }
  }

  // The printed list of a map.

  /** The parts that print `m` as plain `id=addr`, in the order of `ids`. */
  function Plain(ids: seq<u64>, m: map<u64, string>): (ps: seq<Part>)
    requires forall i | 0 <= i < |ids| :: ids[i] in m
    ensures |ps| == |ids| && forall i | 0 <= i < |ids| :: ps[i] == Peer("", ids[i], "", "", m[ids[i]], "")
  {
    seq(|ids|, i requires 0 <= i < |ids| => Peer("", ids[i], "", "", m[ids[i]], ""))
  }

  lemma {:induction false} PlainMeans(ids: seq<u64>, m: map<u64, string>, peers: map<u64, string>)
    requires forall i | 0 <= i < |ids| :: ids[i] in m
    ensures forall id | id in Meaning(Plain(ids, m), peers) :: id in peers || id in ids
    ensures forall id | id in ids :: id in Meaning(Plain(ids, m), peers) && Meaning(Plain(ids, m), peers)[id] == m[id]
    ensures forall id | id in peers && id !in ids ::
              id in Meaning(Plain(ids, m), peers) && Meaning(Plain(ids, m), peers)[id] == peers[id]
    decreases |ids|
  {
    if ids != [] {
      assert Plain(ids, m)[1..] == Plain(ids[1..], m);
      PlainMeans(ids[1..], m, peers[ids[0] := m[ids[0]]]);
      assert forall id :: id in ids <==> id == ids[0] || id in ids[1..];
    }
  }

  lemma PlainOk(ids: seq<u64>, m: map<u64, string>)
    requires (forall i | 0 <= i < |ids| :: ids[i] in m) && forall id | id in m :: Trimmed(m[id]) && NoComma(m[id])
    ensures forall k | 0 <= k < |ids| :: PartOk(Plain(ids, m)[k])
  {
  }

  /** Printing a peer map, in any order of its ids, and parsing it gives the map back. */
  lemma PeersRoundTrip(m: map<u64, string>, ids: seq<u64>)
    requires forall id :: id in ids <==> id in m
    requires forall id | id in m :: Trimmed(m[id]) && NoComma(m[id])
    ensures ParsePeers(Join(Texts(Plain(ids, m)), ',')) == Ok(m)
  {
    PlainOk(ids, m);
    ParsesToMeaning(Plain(ids, m));
    PlainMeans(ids, m, map[]);
    hide ParsePeers;
    assert Meaning(Plain(ids, m), map[]) == m;
  }
}
