/**
 Framing a request for HTTP/2: refusing upgrades and removing the connection-specific header fields.
 Header names and values are ASCII.
 */
module H2Headers {
  import opened Common

  /** http.Header: field name, as stored, to values. */
  type Header = map<string, seq<string>>

  const CONNECTION := "Connection"
  const FIXED: seq<string> := ["Connection", "Proxy-Connection", "Keep-Alive", "Transfer-Encoding", "Upgrade"]

  // ----- names

  function Lower(c: char): char {
    if 'A' <= c <= 'Z' then (c as int + 32) as char else c
  }

  function Upper(c: char): char {
    if 'a' <= c <= 'z' then (c as int - 32) as char else c
  }

  /** The string in lower case; two names are the same field when these agree (strings.EqualFold). */
  function Fold(s: string): (r: string)
    ensures |r| == |s| && forall i :: 0 <= i < |s| ==> r[i] == Lower(s[i])
  {
    if s == [] then [] else [Lower(s[0])] + Fold(s[1..])
  }

  /** The bytes a header field name may hold (token of RFC 7230 section 3.2.6). */
  predicate NameByte(c: char) {
    'a' <= c <= 'z' || 'A' <= c <= 'Z' || '0' <= c <= '9' || c in "!#$%&'*+-.^_`|~"
  }

  predicate ValidName(s: string) {
    s != [] && forall i :: 0 <= i < |s| ==> NameByte(s[i])
  }

  function Capitalized(s: string, upper: bool): (r: string)
    ensures |r| == |s|
  {
    if s == [] then []
    else [if upper then Upper(s[0]) else Lower(s[0])] + Capitalized(s[1..], s[0] == '-')
  }

  /** CanonicalMIMEHeaderKey: names with an invalid byte are left as they are. */
  function Canonical(s: string): string {
    if forall i :: 0 <= i < |s| ==> NameByte(s[i]) then Capitalized(s, true) else s
  }

  lemma {:induction false} CapitalizedFold(s: string, upper: bool)
    ensures Fold(Capitalized(s, upper)) == Fold(s)
    ensures Capitalized(Fold(s), upper) == Capitalized(s, upper)
  {
    if s != [] {
      assert Fold(s)[0] == '-' <==> s[0] == '-';
      assert Fold(s)[1..] == Fold(s[1..]);
      CapitalizedFold(s[1..], s[0] == '-');
      var c := Capitalized(s, upper);
      assert c[1..] == Capitalized(s[1..], s[0] == '-');
      assert Fold(c) == [Lower(c[0])] + Fold(c[1..]);
    }
  }

  lemma FoldKeepsValidity(s: string, t: string)
    requires Fold(s) == Fold(t)
    ensures ValidName(s) <==> ValidName(t)
  {
    assert |s| == |t|;
    forall i | 0 <= i < |s| ensures NameByte(s[i]) <==> NameByte(t[i]) {
      assert Lower(s[i]) == Fold(s)[i] == Fold(t)[i] == Lower(t[i]);
    }
  }

  /** Canonical forms agree exactly on names of the same field. */
  lemma CanonicalIffSameField(s: string, t: string)
    requires ValidName(t)
    ensures Canonical(s) == Canonical(t) <==> Fold(s) == Fold(t)
  {
    CapitalizedFold(s, true);
    CapitalizedFold(t, true);
    if Fold(s) == Fold(t) {
      FoldKeepsValidity(s, t);
    }
  }

  // ----- tokens of the Connection field

  predicate Space(c: char) {
    c == ' ' || c == '\t' || c == '\n' || c == '\r' || c == 11 as char || c == 12 as char
  }

  function TrimSpace(s: string): string {
    if s != [] && Space(s[0]) then TrimSpace(s[1..])
    else if s != [] && Space(s[|s| - 1]) then TrimSpace(s[..|s| - 1])
    else s
  }

  /** The position of the first comma, or the end. */
  function FirstComma(s: string): (i: nat)
    ensures i <= |s| && (i < |s| ==> s[i] == ',')
    ensures forall k :: 0 <= k < i ==> s[k] != ','
  {
    IndexWhere(s, c => c == ',')
  }

  /** The pieces between commas. */
  function SplitCommas(s: string): seq<string> {
    var i := FirstComma(s);
    if i == |s| then [s] else [s[..i]] + SplitCommas(s[i + 1..])
  }

  /** [a, b) is a stretch of v between two commas, or a comma and an end. */
  ghost predicate Stretch(v: string, a: int, b: int) {
    && 0 <= a <= b <= |v|
    && (a == 0 || v[a - 1] == ',') && (b == |v| || v[b] == ',')
    && forall k :: a <= k < b ==> v[k] != ','
  }

  /** s is spaces, then t, then spaces, and t neither begins nor ends with one. */
  ghost predicate Padded(s: string, t: string) {
    exists i, j | 0 <= i <= j <= |s| :: PaddedAt(s, i, j) && t == s[i..j]
  }

  ghost predicate PaddedAt(s: string, i: int, j: int)
    requires 0 <= i <= j <= |s|
  {
    && (forall k :: 0 <= k < i ==> Space(s[k])) && (forall k :: j <= k < |s| ==> Space(s[k]))
    && (i < j ==> !Space(s[i]) && !Space(s[j - 1]))
  }

  /** The header value v lists the token t: between two commas or ends there is t, padded with spaces. */
  ghost predicate ListsIn(v: string, t: string) {
    exists a, b | Stretch(v, a, b) :: Padded(v[a..b], t)
  }

  /** Some Connection value of h lists t. */
  ghost predicate Lists(h: Header, t: string) {
    "Connection" in h && exists i :: 0 <= i < |h["Connection"]| && ListsIn(h["Connection"][i], t)
  }

  lemma PaddedBefore(s: string, t: string)
    requires s != [] && Space(s[0]) && Padded(s[1..], t)
    ensures Padded(s, t)
  {
    var r := s[1..];
    var i, j :| 0 <= i <= j <= |r| && PaddedAt(r, i, j) && t == r[i..j];
    assert forall k :: 1 <= k < |s| ==> s[k] == r[k - 1];
    assert PaddedAt(s, i + 1, j + 1) && r[i..j] == s[i + 1..j + 1];
  }

  lemma PaddedAfter(s: string, t: string)
    requires s != [] && Space(s[|s| - 1]) && Padded(s[..|s| - 1], t)
    ensures Padded(s, t)
  {
    var r := s[..|s| - 1];
    var i, j :| 0 <= i <= j <= |r| && PaddedAt(r, i, j) && t == r[i..j];
    assert PaddedAt(s, i, j) && r[i..j] == s[i..j];
  }

  /** TrimSpace leaves the one padded stretch. */
  lemma {:induction false} TrimIsPadded(s: string)
    ensures Padded(s, TrimSpace(s))
  {
    if s != [] && Space(s[0]) {
      TrimIsPadded(s[1..]);
      PaddedBefore(s, TrimSpace(s[1..]));
    } else if s != [] && Space(s[|s| - 1]) {
      TrimIsPadded(s[..|s| - 1]);
      PaddedAfter(s, TrimSpace(s[..|s| - 1]));
    } else {
      assert PaddedAt(s, 0, |s|) && s == s[0..|s|];
    }
  }

  lemma {:induction false} PaddedIsTrim(s: string, i: nat, j: nat)
    requires i <= j <= |s| && PaddedAt(s, i, j)
    ensures s[i..j] == TrimSpace(s)
    decreases |s|
  {
    if s != [] && Space(s[0]) {
      var r := s[1..];
      assert forall k :: 0 <= k < |r| ==> r[k] == s[k + 1];
      if i == 0 {
        assert j == 0;
        PaddedIsTrim(r, 0, 0);
      } else {
        PaddedIsTrim(r, i - 1, j - 1);
        assert r[i - 1..j - 1] == s[i..j];
      }
    } else if s != [] && Space(s[|s| - 1]) {
      var r := s[..|s| - 1];
      assert j < |s|;
      PaddedIsTrim(r, i, j);
      assert r[i..j] == s[i..j];
    }
  }

  /** No comma is in a piece, and the pieces joined by commas are the whole. */
  lemma {:induction false} SplitMeans(s: string)
    ensures Joined(SplitCommas(s)) == s
    ensures forall p :: p in SplitCommas(s) ==> ',' !in p
    decreases |s|
  {
    var i := FirstComma(s);
    if i < |s| {
      SplitMeans(s[i + 1..]);
      assert s == s[..i] + [','] + s[i + 1..];
    }
  }

  function Joined(pieces: seq<string>): string {
    if pieces == [] then [] else if |pieces| == 1 then pieces[0] else pieces[0] + [','] + Joined(pieces[1..])
  }

  lemma StretchOfRest(v: string, i: nat, a: int, b: int)
    requires i < |v| && v[i] == ',' && 0 <= a
    ensures Stretch(v[i + 1..], a, b) <==> Stretch(v, a + i + 1, b + i + 1)
    ensures Stretch(v[i + 1..], a, b) ==> v[i + 1..][a..b] == v[a + i + 1..b + i + 1]
  {
    var r := v[i + 1..];
    assert forall k :: 0 <= k < |r| ==> r[k] == v[k + i + 1];
    if Stretch(v, a + i + 1, b + i + 1) {
      forall k | a <= k < b ensures r[k] != ',' {
        assert v[k + i + 1] != ',';
      }
    }
  }

  lemma FirstStretch(v: string, i: nat)
    requires i < |v| && v[i] == ',' && forall k :: 0 <= k < i ==> v[k] != ','
    ensures Stretch(v, 0, i)
    ensures forall a, b :: Stretch(v, a, b) && a <= i ==> a == 0 && b == i
  {
  }

  /** Each piece is a stretch. */
  lemma {:induction false} PieceIsStretch(v: string, j: nat) returns (a: int, b: int)
    requires j < |SplitCommas(v)|
    ensures Stretch(v, a, b) && SplitCommas(v)[j] == v[a..b]
    decreases |v|
  {
    var i := FirstComma(v);
    hide FirstComma;
    if i == |v| {
      a, b := 0, |v|;
    } else if j == 0 {
      FirstStretch(v, i);
      a, b := 0, i;
    } else {
      assert SplitCommas(v)[j] == SplitCommas(v[i + 1..])[j - 1];
      hide Stretch, SplitCommas;
      var x, y := PieceIsStretch(v[i + 1..], j - 1);
      StretchInBounds(v[i + 1..], x, y);
      StretchOfRest(v, i, x, y);
      a, b := x + i + 1, y + i + 1;
    }
  }

  /** And each stretch is a piece. */
  lemma {:induction false} StretchIsPiece(v: string, a: int, b: int) returns (j: nat)
    requires Stretch(v, a, b)
    ensures j < |SplitCommas(v)| && SplitCommas(v)[j] == v[a..b]
    decreases |v|
  {
    var i := FirstComma(v);
    hide FirstComma;
    if i == |v| {
      j := 0;
    } else if a <= i {
      FirstStretch(v, i);
      j := 0;
    } else {
      assert SplitCommas(v) == [v[..i]] + SplitCommas(v[i + 1..]);
      StretchInBounds(v, a, b);
      hide Stretch, SplitCommas;
      StretchOfRest(v, i, a - i - 1, b - i - 1);
      var k := StretchIsPiece(v[i + 1..], a - i - 1, b - i - 1);
      j := k + 1;
    }
  }

  lemma StretchInBounds(v: string, a: int, b: int)
    requires Stretch(v, a, b)
    ensures 0 <= a <= b <= |v|
  {
  }

  /** The tokens that the loops over a Connection value see are those it lists. */
  lemma TokenIsListed(v: string, j: nat)
    requires j < |SplitCommas(v)|
    ensures ListsIn(v, TrimSpace(SplitCommas(v)[j]))
  {
    hide SplitCommas, TrimSpace, Padded;
    var a, b := PieceIsStretch(v, j);
    PaddedMeansTrim(v[a..b], TrimSpace(SplitCommas(v)[j]));
  }

  lemma ListedIsToken(v: string, t: string) returns (j: nat)
    requires ListsIn(v, t)
    ensures j < |SplitCommas(v)| && TrimSpace(SplitCommas(v)[j]) == t
  {
    hide SplitCommas, TrimSpace, Padded;
    var a, b :| Stretch(v, a, b) && Padded(v[a..b], t);
    j := StretchIsPiece(v, a, b);
    PaddedMeansTrim(v[a..b], t);
  }

  lemma PaddedMeansTrim(s: string, t: string)
    ensures Padded(s, t) <==> t == TrimSpace(s)
  {
    TrimIsPadded(s);
    if Padded(s, t) {
      var i, j :| 0 <= i <= j <= |s| && PaddedAt(s, i, j) && t == s[i..j];
      PaddedIsTrim(s, i, j);
    }
  }

  function ConnectionValues(h: Header): seq<string> {
    if CONNECTION in h then h[CONNECTION] else []
  }

  /** A field name that HTTP/2 forbids in every request, in any case. */
  predicate AlwaysForbidden(k: string) {
    var f := Fold(k);
    f == "connection" || f == "proxy-connection" || f == "keep-alive" || f == "transfer-encoding" || f == "upgrade"
  }

  /** Field k is one that HTTP/2 forbids for this request. */
  ghost predicate Forbidden(h: Header, k: string) {
    AlwaysForbidden(k) || exists t :: t != [] && Lists(h, t) && Fold(t) == Fold(k)
  }

  ghost predicate WantsUpgrade(h: Header) {
    exists t :: Lists(h, t) && Fold(t) == "upgrade"
  }

  /** hasConnectionUpgrade */
  method HasConnectionUpgrade(h: Header) returns (b: bool)
    ensures b <==> WantsUpgrade(h)
  {
    var values := ConnectionValues(h);
    for i := 0 to |values|
      invariant forall i', j :: 0 <= i' < i && 0 <= j < |SplitCommas(values[i'])| ==>
                  Fold(TrimSpace(SplitCommas(values[i'])[j])) != "upgrade"
    {
      var tokens := SplitCommas(values[i]);
      for j := 0 to |tokens|
        invariant forall j' :: 0 <= j' < j ==> Fold(TrimSpace(tokens[j'])) != "upgrade"
      {
        if Fold(TrimSpace(tokens[j])) == "upgrade" {
          TokenIsListed(values[i], j);
          assert Lists(h, TrimSpace(tokens[j]));
          return true;
        }
      }
    }
    forall i, t | 0 <= i < |values| && ListsIn(values[i], t) ensures Fold(t) != "upgrade" {
      var j := ListedIsToken(values[i], t);
    }
    b := false;
  }

  datatype Framing = NotSent | AsH2 | AsH1

  datatype Sent = RefusedUpgrade | Framed(framing: Framing)

  class Request {
    var header: Header
    var scheme: string

    constructor (header: Header)
      ensures this.header == header
    {
      this.header, scheme := header, "http";
    }

    /** Header.Del */
    method Del(name: string)
      modifies this`header
      ensures header == old(header) - {Canonical(name)}
    {
      header := header - {Canonical(name)};
    }

    /** The tokens of one Connection value. gone holds the names removed before. */
    method StripTokens(value: string)
      modifies this`header
      ensures forall k :: k in header <==> k in old(header) && !NamedIn(value, k)
      ensures forall k :: k in header ==> header[k] == old(header)[k]
    {
      var tokens := SplitCommas(value);
      for j := 0 to |tokens|
        invariant forall k :: k in header <==>
                    k in old(header) && forall j' :: 0 <= j' < j ==> !NamedBy(tokens[j'], k)
        invariant forall k :: k in header ==> header[k] == old(header)[k]
      {
        var name := TrimSpace(tokens[j]);
        if name != "" {
          Del(name);
        }
      }
    }

    /** stripConnHeaders. The values are read once, so deleting Connection itself on the way is harmless. */
    method StripConnHeaders()
      modifies this`header
      ensures forall k :: k in header <==> k in old(header) && !Removed(old(header), k)
      ensures forall k :: k in header ==> header[k] == old(header)[k]
    {
      hide NamedIn, NamedBy, Canonical, Removed;
      ghost var was := header;
      var values := ConnectionValues(header);
      for i := 0 to |values|
        invariant forall k :: k in header <==>
                    k in old(header) && forall i' :: 0 <= i' < i ==> !NamedIn(values[i'], k)
        invariant forall k :: k in header ==> header[k] == old(header)[k]
      {
        StripTokens(values[i]);
      }
      StripFixed();
      forall k ensures k in header <==> k in was && !Removed(was, k) {
        RemovedInLoops(was, k);
      }
    }

    method StripFixed()
      modifies this`header
      ensures forall k :: k in header <==> k in old(header) && k !in FIXED
      ensures forall k :: k in header ==> header[k] == old(header)[k]
    {
      hide Canonical, ValidName;
      for i := 0 to |FIXED|
        invariant forall k :: k in header <==> k in old(header) && k !in FIXED[..i]
        invariant forall k :: k in header ==> header[k] == old(header)[k]
      {
        FixedIsCanonical(i);
        Del(FIXED[i]);
        assert FIXED[..i + 1] == FIXED[..i] + [FIXED[i]];
      }
      assert FIXED[..|FIXED|] == FIXED;
    }

    /** sendOverConn, up to the transport that carries the request. */
    method SendOverConn(h2: bool) returns (r: Sent)
      modifies this
      ensures r.RefusedUpgrade? <==> h2 && WantsUpgrade(old(header))
      ensures r.RefusedUpgrade? || !h2 ==> header == old(header)
      ensures r.Framed? ==> r.framing == (if h2 then AsH2 else AsH1) && scheme == (if h2 then "https" else "http")
      ensures r == Framed(AsH2) ==>
                && (forall k :: k in header <==> k in old(header) && !Removed(old(header), k))
                && (forall k :: k in header ==> header[k] == old(header)[k])
    {
      if h2 {
        var upgrade := HasConnectionUpgrade(header);
        if upgrade {
          return RefusedUpgrade;
        }
        StripConnHeaders();
        scheme := "https";
        return Framed(AsH2);
      }
      scheme := "http";
      r := Framed(AsH1);
    }
  }

  /** The piece of a Connection value has Del remove the stored name k. */
  predicate NamedBy(piece: string, k: string) {
    TrimSpace(piece) != "" && Canonical(TrimSpace(piece)) == k
  }

  predicate NamedIn(value: string, k: string) {
    exists j :: 0 <= j < |SplitCommas(value)| && NamedBy(SplitCommas(value)[j], k)
  }

  lemma NamedMeansListed(value: string, k: string)
    ensures NamedIn(value, k) <==> exists t :: t != "" && ListsIn(value, t) && Canonical(t) == k
  {
    hide Canonical, SplitCommas, TrimSpace, ListsIn;
    if j :| 0 <= j < |SplitCommas(value)| && NamedBy(SplitCommas(value)[j], k) {
      TokenIsListed(value, j);
      assert ListsIn(value, TrimSpace(SplitCommas(value)[j]));
    }
    if t :| t != "" && ListsIn(value, t) && Canonical(t) == k {
      var j := ListedIsToken(value, t);
      assert NamedBy(SplitCommas(value)[j], k);
    }
  }

  /** stripConnHeaders removes the stored name k: one of the five, or the canonical form of a listed token. */
  ghost predicate Removed(h: Header, k: string) {
    || k == "Connection" || k == "Proxy-Connection" || k == "Keep-Alive" || k == "Transfer-Encoding" || k == "Upgrade"
    || exists t :: t != "" && Lists(h, t) && Canonical(t) == k
  }

  lemma RemovedInLoops(h: Header, k: string)
    ensures Removed(h, k) <==>
            k in FIXED || exists i :: 0 <= i < |ConnectionValues(h)| && NamedIn(ConnectionValues(h)[i], k)
  {
    hide NamedIn, Canonical, ListsIn;
    var values := ConnectionValues(h);
    forall i | 0 <= i < |values| { NamedMeansListed(values[i], k); }
    if t :| t != "" && Lists(h, t) && Canonical(t) == k {
      var i :| 0 <= i < |values| && ListsIn(values[i], t);
      assert NamedIn(values[i], k);
    }
  }

  lemma {:induction false} AlreadyCapitalized(s: string, upper: bool)
    requires s != [] ==> s[0] == if upper then Upper(s[0]) else Lower(s[0])
    requires forall i :: 0 < i < |s| ==> s[i] == if s[i - 1] == '-' then Upper(s[i]) else Lower(s[i])
    ensures Capitalized(s, upper) == s
  {
    if s != [] {
      AlreadyCapitalized(s[1..], s[0] == '-');
    }
  }

  /** Dashed words of letters, each with one capital at its start. */
  predicate DashedWords(s: string) {
    && s != [] && 'A' <= s[0] <= 'Z'
    && forall j :: 0 < j < |s| ==> if s[j - 1] == '-' then 'A' <= s[j] <= 'Z' else s[j] == '-' || 'a' <= s[j] <= 'z'
  }

  lemma DashedWordsAreCanonical(s: string)
    requires DashedWords(s)
    ensures ValidName(s) && Canonical(s) == s
  {
    assert NameByte('-');
    forall j | 0 <= j < |s| ensures NameByte(s[j]) {
      if j > 0 {
        assert s[j - 1] == '-' || s[j - 1] != '-';
      }
    }
    AlreadyCapitalized(s, true);
  }

  lemma FixedIsCanonical(i: nat)
    requires i < |FIXED|
    ensures ValidName(FIXED[i]) && Canonical(FIXED[i]) == FIXED[i]
  {
    hide ValidName, Canonical;
    FixedIsDashed(i);
    DashedWordsAreCanonical(FIXED[i]);
  }

  lemma FixedIsDashed(i: nat)
    requires i < |FIXED|
    ensures DashedWords(FIXED[i])
  {
    if i == 0 { assert DashedWords("Connection"); }
    else if i == 1 { assert DashedWords("Proxy-Connection"); }
    else if i == 2 { assert DashedWords("Keep-Alive"); }
    else if i == 3 { assert DashedWords("Transfer-Encoding"); }
    else { assert DashedWords("Upgrade"); }
  }

  // ----- main results

  const FIXED_FOLDED: seq<string> := ["connection", "proxy-connection", "keep-alive", "transfer-encoding", "upgrade"]

  lemma FoldIs(s: string, t: string)
    requires |s| == |t| && forall i :: 0 <= i < |s| ==> Lower(s[i]) == t[i]
    ensures Fold(s) == t
  {
  }

  lemma FixedFolds(i: nat)
    requires i < |FIXED|
    ensures Fold(FIXED[i]) == FIXED_FOLDED[i]
  {
    hide Fold;
    if i == 0 { FoldIs("Connection", "connection"); }
    else if i == 1 { FoldIs("Proxy-Connection", "proxy-connection"); }
    else if i == 2 { FoldIs("Keep-Alive", "keep-alive"); }
    else if i == 3 { FoldIs("Transfer-Encoding", "transfer-encoding"); }
    else { FoldIs("Upgrade", "upgrade"); }
  }

  /** The five names, in any case, are the folded five. */
  lemma AlwaysForbiddenMeans(k: string)
    ensures AlwaysForbidden(k) <==> exists i :: 0 <= i < |FIXED| && Fold(FIXED[i]) == Fold(k)
  {
    hide Fold;
    forall i: nat | i < |FIXED| { FixedFolds(i); }
    if AlwaysForbidden(k) {
      var i := if Fold(k) == FIXED_FOLDED[0] then 0 else if Fold(k) == FIXED_FOLDED[1] then 1
               else if Fold(k) == FIXED_FOLDED[2] then 2 else if Fold(k) == FIXED_FOLDED[3] then 3 else 4;
      assert Fold(FIXED[i]) == Fold(k);
    }
  }

  lemma CanonicalOfToken(t: string, k: string)
    requires ValidName(k)
    ensures Canonical(t) == k <==> Fold(t) == Fold(k) && Canonical(k) == k
  {
    CapitalizedFold(t, true);
    CanonicalIffSameField(t, k);
  }

  /** A field that goes is a forbidden one; a forbidden one goes exactly when its stored name is canonical. */
  lemma RemovedIffCanonical(h: Header, k: string)
    requires ValidName(k)
    ensures Removed(h, k) <==> Forbidden(h, k) && Canonical(k) == k
  {
    forall t { CanonicalOfToken(t, k); }
    FixedIffCanonical(k);
    hide Canonical, Fold, ValidName, Lists, AlwaysForbidden;
  }

  lemma FixedIffCanonical(k: string)
    requires ValidName(k)
    ensures k in FIXED <==> AlwaysForbidden(k) && Canonical(k) == k
  {
    AlwaysForbiddenMeans(k);
    hide Canonical, Fold, ValidName, AlwaysForbidden;
    forall i: nat | i < |FIXED| ensures FIXED[i] == k <==> Fold(FIXED[i]) == Fold(k) && Canonical(k) == k {
      FixedIsCanonical(i);
      CanonicalOfToken(FIXED[i], k);
    }
  }

  /** A name with an invalid byte is removed only when Connection lists it letter for letter. */
  lemma CanonicalOfInvalid(t: string, k: string)
    requires !ValidName(k) && t != ""
    ensures Canonical(t) == k <==> t == k
    ensures ValidName(t) ==> Fold(t) != Fold(k)
  {
    CapitalizedFold(t, true);
    if Fold(t) == Fold(k) {
      FoldKeepsValidity(t, k);
    }
    FoldKeepsValidity(t, Capitalized(t, true));
  }

  /** The stored name k is one that Header.Del gets at: canonical, or invalid and listed letter for letter. */
  ghost predicate StoredInReach(h: Header, k: string) {
    if ValidName(k) then Canonical(k) == k else Lists(h, k)
  }

  /** A field that goes is a forbidden one; a forbidden one goes exactly when its stored name is in reach. */
  lemma RemovedIffInReach(h: Header, k: string)
    ensures Removed(h, k) <==> Forbidden(h, k) && StoredInReach(h, k)
  {
    if ValidName(k) {
      RemovedIffCanonical(h, k);
    } else {
      InvalidIsNotFixed(k);
      hide ValidName, Canonical, Lists, AlwaysForbidden;
      if Removed(h, k) {
        var t :| t != "" && Lists(h, t) && Canonical(t) == k;
        CanonicalOfInvalid(t, k);
      }
      if Lists(h, k) && Forbidden(h, k) {
        CanonicalOfInvalid(k, k);
      }
    }
  }

  lemma InvalidIsNotFixed(k: string)
    requires !ValidName(k)
    ensures k !in FIXED && !AlwaysForbidden(k)
  {
    hide ValidName, Canonical, AlwaysForbidden, Fold;
    if f :| f in FIXED && f == k {
      var i :| 0 <= i < |FIXED| && FIXED[i] == f;
      FixedIsCanonical(i);
    }
    AlwaysForbiddenMeans(k);
    if AlwaysForbidden(k) {
      var i :| 0 <= i < |FIXED| && Fold(FIXED[i]) == Fold(k);
      FixedIsCanonical(i);
      CanonicalOfInvalid(FIXED[i], k);
    }
  }

  /** h' holds no field HTTP/2 forbids for h, and every other field of h unchanged. */
  ghost predicate CleanForH2(h: Header, h': Header) {
    && (forall k :: k in h' ==> k in h && h'[k] == h[k])
    && (forall k :: k in h ==> (k in h' <==> !Forbidden(h, k)))
  }

  /**
   What sendOverConn hands to the HTTP/2 transport is clean, for all tokens of all Connection values, exactly
   when the forbidden fields were stored under names in reach.
   */
  lemma FramedIsClean(h: Header, h': Header)
    requires forall k :: k in h' <==> k in h && !Removed(h, k)
    requires forall k :: k in h' ==> h'[k] == h[k]
    ensures CleanForH2(h, h') <==> forall k :: k in h && Forbidden(h, k) ==> StoredInReach(h, k)
  {
    hide Removed, Forbidden, StoredInReach;
    forall k | k in h { RemovedIffInReach(h, k); }
  }

  /** The condition is needed: a forbidden field stored as "upgrade" is not removed. */
  lemma LowerCaseFieldSurvives()
    ensures var h: Header := map["upgrade" := ["x"]];
            !WantsUpgrade(h) && Forbidden(h, "upgrade") && !Removed(h, "upgrade")
  {
    hide Removed, NameByte;
    var h: Header := map["upgrade" := ["x"]];
    UpgradeSpellings();
    assert FIXED[4] in FIXED;
    RemovedIffCanonical(h, "upgrade");
  }

  lemma UpgradeSpellings()
    ensures ValidName("upgrade") && Fold(FIXED[4]) == Fold("upgrade") && Canonical("upgrade") != "upgrade"
  {
    FixedIsCanonical(4);
    var a, b := "Upgrade", "upgrade";
    assert Fold(a) == Fold(b) by {
      assert forall i :: 1 <= i < |a| ==> a[i] == b[i];
    }
    FoldKeepsValidity(a, b);
    assert Capitalized(b, true)[0] == 'U';
  }
}
