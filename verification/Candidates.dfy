/** The candidate codec: printing gathered candidates into one message, and parsing
    such a message into candidates. */
module Candidates {
  import opened Text

  datatype Candidate = Candidate(
    id: string,
    component: CInt,
    protocol: string,
    ip: string,
    port: CInt,
    priority: CInt,
    username: string,
    password: string,
    kind: string,
    network: string,
    generation: CInt,
    foundation: string)

  const DELIM := ':'
  const FIELDS := 12

  /** `name.substr(0, name.find(' '))` */
  function Cut(name: string): (r: string)
    ensures r <= name && ' ' !in r
    ensures r != name ==> name[|r|] == ' '
  {
    if name == "" || name[0] == ' ' then "" else [name[0]] + Cut(name[1..])
  }

  /** The candidate as its message shows it. */
  function Shown(c: Candidate): Candidate {
    c.(network := Cut(c.network))
  }

  function Fields(c: Candidate): seq<string> {
    [c.id, Decimal(c.component), c.protocol, c.ip, Decimal(c.port), Decimal(c.priority),
     c.username, c.password, c.kind, Cut(c.network), Decimal(c.generation), c.foundation]
  }

  function Print(c: Candidate): string {
    Join(Fields(c), DELIM)
  }

  /** The printed form: twelve fields behind one another, with a colon between. */
  lemma PrintedForm(c: Candidate)
    ensures Print(c) ==
              c.id + ":" + (Decimal(c.component) + ":" + (c.protocol + ":" + (c.ip + ":" + (Decimal(c.port) + ":"
              + (Decimal(c.priority) + ":" + (c.username + ":" + (c.password + ":" + (c.kind + ":"
              + (Cut(c.network) + ":" + (Decimal(c.generation) + ":" + c.foundation))))))))))
  {
    var last2 := [Decimal(c.generation), c.foundation];
    var last5 := [c.password, c.kind, Cut(c.network)] + last2;
    var last8 := [Decimal(c.port), Decimal(c.priority), c.username] + last5;
    assert Join(last2, DELIM) == Decimal(c.generation) + ":" + c.foundation by {
      assert last2[1..] == [c.foundation];
    }
    JoinThree(c.password, c.kind, Cut(c.network), last2);
    JoinThree(Decimal(c.port), Decimal(c.priority), c.username, last5);
    JoinThree(Decimal(c.component), c.protocol, c.ip, last8);
    assert Fields(c)[1..] == [Decimal(c.component), c.protocol, c.ip] + last8;
  }

  lemma JoinCons(f: string, rest: seq<string>)
    requires rest != []
    ensures Join([f] + rest, DELIM) == f + ":" + Join(rest, DELIM)
  {
    assert ([f] + rest)[1..] == rest;
  }

  lemma JoinThree(f: string, g: string, h: string, rest: seq<string>)
    requires rest != []
    ensures Join([f, g, h] + rest, DELIM) == f + ":" + (g + ":" + (h + ":" + Join(rest, DELIM)))
  {
    JoinCons(h, rest);
    JoinCons(g, [h] + rest);
    JoinCons(f, [g] + ([h] + rest));
    assert [f, g, h] + rest == [f] + ([g] + ([h] + rest));
  }

  function FromFields(f: seq<string>): Candidate
    requires |f| >= FIELDS
  {
    Candidate(f[0], AtoI(f[1]), f[2], f[3], AtoI(f[4]), AtoI(f[5]), f[6], f[7], f[8], f[9], AtoI(f[10]), f[11])
  }

  /** The candidates in a list of words; a word of fewer than twelve fields is skipped. */
  function ParseWords(words: seq<string>): seq<Candidate> {
    if words == [] then []
    else
      var f := Split(words[0], DELIM);
      (if |f| >= FIELDS then [FromFields(f)] else []) + ParseWords(words[1..])
  }

  function Parse(s: string): seq<Candidate> {
    ParseWords(Words(s))
  }

  /** The candidates still to come from a stream that is good or has failed. */
  function Left(rest: string, good: bool): seq<Candidate> {
    if good then Parse(rest) else []
  }

  /** Parsing one word at a time, behind the candidates had so far; at the end the word is
      empty and its one field is skipped. */
  lemma ParseStep(s: string, had: seq<Candidate>)
    ensures var t := SkipSpace(s);
            var word, rest := t[..WordLength(t)], t[WordLength(t)..];
            var f := Split(word, DELIM);
            && had + Left(s, true) == (if |f| >= FIELDS then had + [FromFields(f)] else had) + Left(rest, word != "")
            && (word != "" ==> |rest| < |s|)
  {
    var t := SkipSpace(s);
    var n := WordLength(t);
    if t != "" {
      assert Words(s) == [t[..n]] + Words(t[n..]);
      assert Words(s)[1..] == Words(t[n..]);
    }
  }

  // ---------- std::set<std::string> ----------

  ghost predicate Sorted(list: seq<string>) {
    forall i, j :: 0 <= i < j < |list| ==> Less(list[i], list[j])
  }

  /** Insertion into a `std::set`, kept as its sorted sequence of elements. */
  function Insert(list: seq<string>, x: string): (r: seq<string>)
    ensures forall y :: y in r <==> y == x || y in list
  {
    if list == [] then [x]
    else if Less(x, list[0]) then [x] + list
    else if x == list[0] then list
    else [list[0]] + Insert(list[1..], x)
  }

  lemma {:induction false} InsertSorted(list: seq<string>, x: string)
    requires Sorted(list)
    ensures Sorted(Insert(list, x))
  {
    if list != [] {
      CompareTotal(x, list[0]);
      if Less(x, list[0]) {
        forall j | 0 < j < |list| ensures Less(x, list[j]) {
          LessTransitive(x, list[0], list[j]);
        }
      } else if x != list[0] {
        InsertSorted(list[1..], x);
        var rest := Insert(list[1..], x);
        forall j | 0 <= j < |rest| ensures Less(list[0], rest[j]) {
          assert rest[j] in rest;
        }
      }
    }
  }

  // ---------- gathering ----------

  /** `OnCandidatesReady`: all but tap-device candidates are printed into the set. */
  function Gather(list: seq<string>, cs: seq<Candidate>, tap: string): seq<string> {
    if cs == [] then list
    else
      var c, before := cs[|cs| - 1], Gather(list, cs[..|cs| - 1], tap);
      if c.network == tap then before else Insert(before, Print(c))
  }

  lemma {:induction false} GatherBatches(list: seq<string>, a: seq<Candidate>, b: seq<Candidate>, tap: string)
    ensures Gather(Gather(list, a, tap), b, tap) == Gather(list, a + b, tap)
  {
    if b == [] {
      assert a + b == a;
    } else {
      assert (a + b)[..|a + b| - 1] == a + b[..|b| - 1];
      GatherBatches(list, a, b[..|b| - 1], tap);
    }
  }

  lemma {:induction false} Gathered(cs: seq<Candidate>, tap: string)
    ensures Sorted(Gather([], cs, tap))
    ensures forall c :: c in cs && c.network != tap ==> Print(c) in Gather([], cs, tap)
    ensures forall w :: w in Gather([], cs, tap) ==> exists c :: c in cs && c.network != tap && w == Print(c)
  {
    if cs != [] {
      var prev, c := cs[..|cs| - 1], cs[|cs| - 1];
      assert cs == prev + [c];
      Gathered(prev, tap);
      InsertSorted(Gather([], prev, tap), Print(c));
      forall w | w in Gather([], cs, tap) ensures exists d :: d in cs && d.network != tap && w == Print(d) {
        if w in Gather([], prev, tap) {
          var d :| d in prev && d.network != tap && w == Print(d);
          assert d in cs;
        } else {
          assert c in cs && w == Print(c);
        }
      }
    }
  }

  /** `OnCandidatesAllocationDone`: the fingerprint, then each string behind a space. */
  function Message(fingerprint: string, list: seq<string>): string {
    fingerprint + Spaced(list)
  }

  /** The words of the message are the fingerprint and then the gathered strings, if none
      of them is empty or holds white space. */
  lemma MessageWords(fingerprint: string, list: seq<string>)
    requires fingerprint != "" && NoSpace(fingerprint) && forall w :: w in list ==> w != "" && NoSpace(w)
    ensures Words(Message(fingerprint, list)) == [fingerprint] + list
  {
    WordsStep("", fingerprint, Spaced(list));
    assert "" + fingerprint + Spaced(list) == Message(fingerprint, list);
    WordsSpaced(list);
  }

  // ---------- the round trip ----------

  predicate Plain(s: string) {
    DELIM !in s && NoSpace(s)
  }

  /** No text field holds a colon or white space. */
  predicate Clean(c: Candidate) {
    Plain(c.id) && Plain(c.protocol) && Plain(c.ip) && Plain(c.username) && Plain(c.password)
    && Plain(c.kind) && Plain(c.network) && Plain(c.foundation)
  }

  lemma DecimalPlain(n: CInt)
    ensures Plain(Decimal(n))
  {
    forall c | c in Decimal(n) ensures !IsSpace(c) && c != DELIM {
      if n < 0 {
        assert c == '-' || c in Digits(0 - n);
      }
    }
  }

  lemma FieldsPlain(c: Candidate)
    requires Clean(Shown(c))
    ensures forall f :: f in Fields(c) ==> Plain(f)
  {
    DecimalPlain(c.component);
    DecimalPlain(c.port);
    DecimalPlain(c.priority);
    DecimalPlain(c.generation);
  }

  lemma {:induction false} JoinNoSpace(fields: seq<string>)
    requires |fields| >= 1 && forall f :: f in fields ==> NoSpace(f)
    ensures NoSpace(Join(fields, DELIM))
  {
    if |fields| > 1 {
      JoinNoSpace(fields[1..]);
      assert fields[0] in fields;
    }
  }

  /** One clean candidate comes back from its printed form, alone in its word. */
  lemma PrintRoundTrip(c: Candidate)
    requires Clean(Shown(c))
    ensures Print(c) != "" && NoSpace(Print(c))
    ensures Split(Print(c), DELIM) == Fields(c)
    ensures FromFields(Fields(c)) == Shown(c)
  {
    FieldsPlain(c);
    JoinNoSpace(Fields(c));
    SplitJoin(Fields(c), DELIM);
    assert Print(c) == c.id + [DELIM] + Join(Fields(c)[1..], DELIM);
    AtoIDecimal(c.component);
    AtoIDecimal(c.port);
    AtoIDecimal(c.priority);
    AtoIDecimal(c.generation);
  }

  /** Every word of the list is the print of some clean candidate. */
  ghost predicate PrintsClean(words: seq<string>) {
    forall w :: w in words ==> exists c :: Clean(Shown(c)) && w == Print(c)
  }

  lemma {:induction false} CutPlain(s: string)
    requires ' ' !in s
    ensures Cut(s) == s
  {
    if s != "" {
      CutPlain(s[1..]);
    }
  }

  /** The candidate a clean print is parsed to. */
  lemma ParseWord(w: string)
    requires exists c :: Clean(Shown(c)) && w == Print(c)
    ensures w != "" && NoSpace(w) && |Split(w, DELIM)| == FIELDS
    ensures var g := FromFields(Split(w, DELIM)); Print(g) == w && Clean(g) && Shown(g) == g
  {
    var c :| Clean(Shown(c)) && w == Print(c);
    PrintRoundTrip(c);
    CutPlain(Cut(c.network));
  }

  lemma {:induction false} ParseLength(words: seq<string>)
    requires forall w :: w in words ==> |Split(w, DELIM)| >= FIELDS
    ensures |ParseWords(words)| == |words|
  {
    if words != [] {
      assert words[0] in words && forall w :: w in words[1..] ==> w in words;
      ParseLength(words[1..]);
    }
  }

  lemma {:induction false} ParseAt(words: seq<string>, i: nat)
    requires i < |words| && forall w :: w in words ==> |Split(w, DELIM)| >= FIELDS
    ensures |ParseWords(words)| == |words| && words[i] in words
    ensures ParseWords(words)[i] == FromFields(Split(words[i], DELIM))
  {
    ParseLength(words);
    assert words[0] in words && forall w :: w in words[1..] ==> w in words;
    if i > 0 {
      ParseAt(words[1..], i - 1);
    }
  }

  lemma ParsePrinted(words: seq<string>)
    requires PrintsClean(words)
    ensures |ParseWords(words)| == |words|
    ensures forall i :: 0 <= i < |words| ==>
              var g := ParseWords(words)[i]; Print(g) == words[i] && Clean(g) && Shown(g) == g
    ensures forall w :: w in words ==> w != "" && NoSpace(w)
  {
    forall w | w in words ensures |Split(w, DELIM)| >= FIELDS && w != "" && NoSpace(w) {
      ParseWord(w);
    }
    ParseLength(words);
    forall i | 0 <= i < |words|
      ensures var g := ParseWords(words)[i]; Print(g) == words[i] && Clean(g) && Shown(g) == g
    {
      ParseAt(words, i);
      ParseWord(words[i]);
    }
  }

  lemma {:induction false} ParsedAreClean(words: seq<string>)
    requires forall w :: w in words ==> NoSpace(w)
    ensures forall c :: c in ParseWords(words) ==> Clean(c)
  {
    if words != [] {
      assert words[0] in words && forall w :: w in words[1..] ==> w in words;
      ParsedAreClean(words[1..]);
      var f := Split(words[0], DELIM);
      SplitFieldChars(words[0], DELIM);
      forall i | 0 <= i < |f| ensures Plain(f[i]) {
        assert f[i] in f;
      }
    }
  }

  /** The parsed candidates are, as a set, the gathered ones less the tap device's. */
  ghost predicate SameSet(got: seq<Candidate>, cs: seq<Candidate>, tap: string) {
    && (forall c :: c in cs && c.network != tap ==> Shown(c) in got)
    && (forall g :: g in got ==> exists c :: c in cs && c.network != tap && g == Shown(c))
  }

  ghost predicate AllClean(cs: seq<Candidate>, tap: string) {
    forall c :: c in cs && c.network != tap ==> Clean(Shown(c))
  }

  /** What the peer parses behind the fingerprint of the message. */
  function Received(cs: seq<Candidate>, tap: string, fingerprint: string): seq<Candidate> {
    Parse(Message(fingerprint, Gather([], cs, tap))[|fingerprint|..])
  }

  /** The round trip, for all gathered candidates in any number of batches: what the
      peer parses behind the fingerprint is the gathered set less tap-device
      candidates if and only if no text field of those holds a colon or white space
      (an IPv6 address holds colons). */
  lemma CandidateRoundTrip(cs: seq<Candidate>, tap: string, fingerprint: string)
    ensures SameSet(Received(cs, tap, fingerprint), cs, tap) <==> AllClean(cs, tap)
  {
    var list := Gather([], cs, tap);
    BehindFingerprint(fingerprint, list);
    WordsHaveNoSpace(Spaced(list));
    ParsedAreClean(Words(Spaced(list)));
    if AllClean(cs, tap) {
      CleanParse(cs, tap);
      Gathered(cs, tap);
      SameFromPrints(ParseWords(list), list, cs, tap);
    }
  }

  lemma BehindFingerprint(fingerprint: string, list: seq<string>)
    ensures Message(fingerprint, list)[|fingerprint|..] == Spaced(list)
  {
  }

  lemma CleanParse(cs: seq<Candidate>, tap: string)
    requires AllClean(cs, tap)
    ensures var list := Gather([], cs, tap);
            && PrintsClean(list) && Parse(Spaced(list)) == ParseWords(list) && |ParseWords(list)| == |list|
            && (forall i :: 0 <= i < |list| ==>
                  var g := ParseWords(list)[i]; Print(g) == list[i] && Clean(g) && Shown(g) == g)
  {
    var list := Gather([], cs, tap);
    Gathered(cs, tap);
    forall w | w in list ensures exists c :: Clean(Shown(c)) && w == Print(c) {
      var c :| c in cs && c.network != tap && w == Print(c);
    }
    ParsePrinted(list);
    WordsSpaced(list);
  }

  /** In that case there is one parsed candidate for each string in the set, in the
      order of the printed forms and without duplicates. */
  lemma CleanRoundTrip(cs: seq<Candidate>, tap: string, fingerprint: string, i: nat)
    requires AllClean(cs, tap) && i < |Received(cs, tap, fingerprint)|
    ensures |Received(cs, tap, fingerprint)| == |Gather([], cs, tap)|
    ensures Print(Received(cs, tap, fingerprint)[i]) == Gather([], cs, tap)[i]
    ensures forall j :: 0 <= j < i ==>
              Below(Print(Received(cs, tap, fingerprint)[j]), Print(Received(cs, tap, fingerprint)[i]))
              && Received(cs, tap, fingerprint)[j] != Received(cs, tap, fingerprint)[i]
  {
    var list := Gather([], cs, tap);
    BehindFingerprint(fingerprint, list);
    CleanParse(cs, tap);
    Gathered(cs, tap);
    forall j | 0 <= j < i ensures Below(list[j], list[i]) && list[j] != list[i] {
      CompareIsLexicographic(list[j], list[i]);
    }
  }

  lemma SameFromPrints(got: seq<Candidate>, list: seq<string>, cs: seq<Candidate>, tap: string)
    requires AllClean(cs, tap) && |got| == |list|
    requires forall i :: 0 <= i < |got| ==> Print(got[i]) == list[i] && Clean(got[i]) && Shown(got[i]) == got[i]
    requires forall c :: c in cs && c.network != tap ==> Print(c) in list
    requires forall w :: w in list ==> exists c :: c in cs && c.network != tap && w == Print(c)
    ensures SameSet(got, cs, tap)
  {
    forall c | c in cs && c.network != tap ensures Shown(c) in got {
      var i :| 0 <= i < |list| && list[i] == Print(c);
      SamePrint(got[i], c);
    }
    forall g | g in got ensures exists c :: c in cs && c.network != tap && g == Shown(c) {
      var i :| 0 <= i < |got| && got[i] == g;
      assert list[i] in list;
      var c :| c in cs && c.network != tap && list[i] == Print(c);
      SamePrint(g, c);
    }
  }

  /** Printing is injective on clean candidates, up to the cut of the network name. */
  lemma SamePrint(a: Candidate, b: Candidate)
    requires Clean(Shown(a)) && Clean(Shown(b)) && Print(a) == Print(b)
    ensures Shown(a) == Shown(b)
  {
    PrintRoundTrip(a);
    PrintRoundTrip(b);
  }

  /** A word with fewer than eleven colons is skipped; of a longer one the first twelve
      fields count, so that what follows a clean candidate does not matter. */
  lemma WordsOfOtherLengths(w: string, c: Candidate, tail: string)
    requires Clean(Shown(c))
    ensures multiset(w)[':'] < 11 ==> ParseWords([w]) == []
    ensures ParseWords([Print(c) + ":" + tail]) == [Shown(c)]
  {
    SplitCount(w, DELIM);
    assert [w][1..] == [];
    var longer := Print(c) + ":" + tail;
    FieldsPlain(c);
    SplitJoinMore(Fields(c), tail);
    PrintRoundTrip(c);
    assert [longer][1..] == [];
    var f := Split(longer, DELIM);
    assert f[..FIELDS] == Fields(c);
    assert forall i :: 0 <= i < FIELDS ==> f[i] == f[..FIELDS][i];
  }

  lemma {:induction false} SplitJoinMore(fields: seq<string>, tail: string)
    requires |fields| >= 1 && forall f :: f in fields ==> DELIM !in f
    ensures Split(Join(fields, DELIM) + ":" + tail, DELIM) == fields + Split(tail, DELIM)
  {
    var rest := fields[1..];
    if rest == [] {
      SplitFirst(fields[0], tail, DELIM);
    } else {
      SplitJoinMore(rest, tail);
      var behind := Join(rest, DELIM) + ":" + tail;
      assert Join(fields, DELIM) + ":" + tail == fields[0] + [DELIM] + behind;
      SplitFirst(fields[0], behind, DELIM);
    }
  }

  /** An IPv6 candidate is lost to the shift of its fields. */
  lemma Ipv6CandidateIsGarbled(c: Candidate, tap: string, fingerprint: string)
    requires DELIM in c.ip && c.network != tap
    ensures !SameSet(Received([c], tap, fingerprint), [c], tap)
  {
    CandidateRoundTrip([c], tap, fingerprint);
    assert c in [c] && !Clean(Shown(c));
  }
}
