/** Rewriting '?' bind markers to Postgres' $N, leaving quoted literals alone. */
module BindMarkers {
  import opened Decimal

  /** Quotes among the first i bytes. */
  function Quotes(q: string, i: nat): nat
    requires i <= |q|
  {
    if i == 0 then 0 else Quotes(q, i - 1) + (if q[i - 1] == '\'' then 1 else 0)
  }

  /** A '?' is a bind marker exactly when an even number of quotes precede it. */
  predicate IsMarker(q: string, i: nat)
    requires i < |q|
  {
    q[i] == '?' && Quotes(q, i) % 2 == 0
  }

  function Markers(q: string, i: nat): nat
    requires i <= |q|
  {
    if i == 0 then 0 else Markers(q, i - 1) + (if IsMarker(q, i - 1) then 1 else 0)
  }

  function Marker(n: nat): (s: string)
    ensures Plain(s)
  {
    "$" + Itoa(n)
  }

  /** What stands for byte i: itself, or $k for the k-th marker. */
  function Piece(q: string, i: nat): string
    requires i < |q|
  {
    if IsMarker(q, i) then Marker(Markers(q, i) + 1) else [q[i]]
  }

  function RewrittenTo(q: string, i: nat): string
    requires i <= |q|
  {
    if i == 0 then "" else RewrittenTo(q, i - 1) + Piece(q, i - 1)
  }

  function Rewritten(q: string): string {
    RewrittenTo(q, |q|)
  }

  /** The scanner: outside a literal it copies bytes and numbers markers; at a quote it runs to the
      closing quote, stepping over doubled quotes, or to the end, and copies the literal whole. */
  method RewriteQuery(q: string) returns (out: string)
    ensures out == Rewritten(q)
  {
    out := "";
    var n, i := 1, 0;
    while i < |q|
      invariant ScannedTo(q, i, out, n)
    {
      var c := q[i];
      if c == '\'' {
        var j := LiteralEnd(q, i);
        out := out + q[i..j];
        i := j;
      } else if c == '?' {
        Scanned(q, i);
        out := out + ("$" + Itoa(n));
        n := n + 1;
        i := i + 1;
      } else {
        Scanned(q, i);
        out := out + [c];
        i := i + 1;
      }
    }
  }

  /** The scanner stands outside any literal, at byte i or at the end. */
  ghost predicate ScannedTo(q: string, i: int, out: string, n: int) {
    0 <= i <= |q| && out == RewrittenTo(q, i) && n == Markers(q, i) + 1 && (i < |q| ==> !Inside(q, i))
  }

  /** One byte outside a literal. */
  lemma Scanned(q: string, i: nat)
    requires i < |q| && q[i] != '\'' && Quotes(q, i) % 2 == 0
    ensures Quotes(q, i + 1) == Quotes(q, i)
    ensures RewrittenTo(q, i + 1) == RewrittenTo(q, i) + if q[i] == '?' then Marker(Markers(q, i) + 1) else [q[i]]
    ensures Markers(q, i + 1) == Markers(q, i) + if q[i] == '?' then 1 else 0
  {
  }

  /** Bytes i to j are copied unchanged, and no marker is counted there. */
  ghost predicate CopiedFrom(q: string, i: nat, j: nat)
    requires i <= j <= |q|
  {
    RewrittenTo(q, j) == RewrittenTo(q, i) + q[i..j] && Markers(q, j) == Markers(q, i)
  }

  predicate Inside(q: string, j: nat)
    requires j <= |q|
  {
    Quotes(q, j) % 2 == 1
  }

  /** Where the literal that opens at i ends. */
  method LiteralEnd(q: string, i: nat) returns (j: nat)
    requires i < |q| && q[i] == '\'' && !Inside(q, i)
    ensures i < j <= |q| && (j < |q| ==> !Inside(q, j))
    ensures CopiedFrom(q, i, j)
  {
    j := i + 1;
    assert q[i..i] == "";
    Copied(q, i, i);
    while j < |q|
      invariant i < j <= |q| && Inside(q, j) && CopiedFrom(q, i, j)
    {
      Copied(q, i, j);
      if q[j] == '\'' {
        if j + 1 < |q| && q[j + 1] == '\'' {
          Copied(q, i, j + 1);
          j := j + 2;
        } else {
          j := j + 1;
          break;
        }
      } else {
        j := j + 1;
      }
    }
  }

  /** One byte that is not a marker is copied, and only a quote changes sides. */
  lemma Copied(q: string, i: nat, j: nat)
    requires i <= j < |q| && !IsMarker(q, j) && CopiedFrom(q, i, j)
    ensures CopiedFrom(q, i, j + 1)
    ensures Inside(q, j + 1) == if q[j] == '\'' then !Inside(q, j) else Inside(q, j)
  {
    CopyByte(RewrittenTo(q, i), RewrittenTo(q, j), q, i, j);
  }

  lemma CopyByte(a: string, b: string, q: string, i: nat, j: nat)
    requires i <= j < |q| && b == a + q[i..j]
    ensures b + [q[j]] == a + q[i..j + 1]
  {
  }

  // ---- Extending a query.

  predicate Plain(s: string) {
    forall i :: 0 <= i < |s| ==> s[i] != '?' && s[i] != '\''
  }

  lemma {:induction false} SameCounts(q: string, r: string, i: nat)
    requires i <= |q| && i <= |r| && forall k :: 0 <= k < i ==> q[k] == r[k]
    ensures Quotes(q, i) == Quotes(r, i) && Markers(q, i) == Markers(r, i)
  {
    if i > 0 {
      SameCounts(q, r, i - 1);
    }
  }

  lemma {:induction false} SamePrefix(q: string, r: string, i: nat)
    requires i <= |q| && i <= |r| && forall k :: 0 <= k < i ==> q[k] == r[k]
    ensures Quotes(q, i) == Quotes(r, i) && Markers(q, i) == Markers(r, i) && RewrittenTo(q, i) == RewrittenTo(r, i)
  {
    SameCounts(q, r, i);
    if i > 0 {
      SamePrefix(q, r, i - 1);
      SamePiece(q, r, i - 1);
    }
  }

  lemma SamePiece(q: string, r: string, i: nat)
    requires i < |q| && i < |r| && q[i] == r[i] && Quotes(q, i) == Quotes(r, i) && Markers(q, i) == Markers(r, i)
    ensures Piece(q, i) == Piece(r, i)
  {
  }

  /** Appending one byte. */
  lemma Snoc(s: string, c: char)
    ensures var t := s + [c];
      && Quotes(t, |t|) == Quotes(s, |s|) + (if c == '\'' then 1 else 0)
      && Markers(t, |t|) == Markers(s, |s|) + (if c == '?' && Quotes(s, |s|) % 2 == 0 then 1 else 0)
      && Rewritten(t)
        == Rewritten(s) + (if c == '?' && Quotes(s, |s|) % 2 == 0 then Marker(Markers(s, |s|) + 1) else [c])
  {
    SamePrefix(s + [c], s, |s|);
  }

  /** What is rewritten, byte by byte: a question mark behind an even number of quotes becomes a dollar sign and
      its number among such marks, any other byte stays. */
  lemma RewriteNext(s: string, c: char, quotes: nat, marks: nat)
    requires quotes == Quotes(s, |s|) && marks == Markers(s, |s|)
    ensures c == '?' && quotes % 2 == 0 ==> Rewritten(s + [c]) == Rewritten(s) + ("$" + Itoa(marks + 1))
    ensures !(c == '?' && quotes % 2 == 0) ==> Rewritten(s + [c]) == Rewritten(s) + [c]
    ensures Quotes(s + [c], |s| + 1) == quotes + (if c == '\'' then 1 else 0)
    ensures Markers(s + [c], |s| + 1) == marks + (if c == '?' && quotes % 2 == 0 then 1 else 0)
  {
    Snoc(s, c);
  }

  lemma NothingRewritten()
    ensures Rewritten("") == "" && Quotes("", 0) == 0 && Markers("", 0) == 0
  {
  }

  lemma {:induction false} PlainAppends(s: string, t: string)
    requires Plain(t)
    ensures Quotes(s + t, |s + t|) == Quotes(s, |s|) && Markers(s + t, |s + t|) == Markers(s, |s|)
    ensures Rewritten(s + t) == Rewritten(s) + t
  {
    if t == "" {
      assert s + t == s;
    } else {
      var init, c := t[..|t| - 1], t[|t| - 1];
      assert s + t == (s + init) + [c] && t == init + [c];
      PlainAppends(s, init);
      Snoc(s + init, c);
      assert Rewritten(s) + init + [c] == Rewritten(s) + t;
    }
  }

  // ---- Rewriting twice.

  predicate NothingLeftIn(r: string, quotes: nat) {
    Markers(r, |r|) == 0 && Quotes(r, |r|) == quotes
  }

  /** What every next piece keeps holds of the whole. */
  ghost predicate KeptByPieces(q: string, clean: (string, nat) -> bool) {
    clean("", 0) && forall r, i: nat :: i < |q| && clean(r, i) ==> clean(r + Piece(q, i), i + 1)
  }

  lemma {:induction false} Pieces(q: string, clean: (string, nat) -> bool, i: nat)
    requires i <= |q| && KeptByPieces(q, clean)
    ensures clean(RewrittenTo(q, i), i)
  {
    if i > 0 {
      Pieces(q, clean, i - 1);
    }
  }

  function Clean(q: string): (string, nat) -> bool {
    (r: string, i: nat) => i <= |q| && NothingLeftIn(r, Quotes(q, i))
  }

  lemma NothingLeft(q: string)
    ensures NothingLeftIn(Rewritten(q), Quotes(q, |q|))
  {
    PiecesClean(q);
    Pieces(q, Clean(q), |q|);
    assert Clean(q)(Rewritten(q), |q|);
  }

  lemma PiecesClean(q: string)
    ensures KeptByPieces(q, Clean(q))
  {
    assert NothingLeftIn("", Quotes(q, 0));
    forall r, i: nat | i < |q| && Clean(q)(r, i) ensures Clean(q)(r + Piece(q, i), i + 1) {
      PieceClean(q, r, i);
    }
  }

  lemma PieceClean(q: string, r: string, i: nat)
    requires i < |q| && Clean(q)(r, i)
    ensures Clean(q)(r + Piece(q, i), i + 1)
  {
    PieceAppends(r, r + Piece(q, i), q, i);
  }

  lemma PieceAppends(r: string, t: string, q: string, i: nat)
    requires i < |q| && NothingLeftIn(r, Quotes(q, i)) && t == r + Piece(q, i)
    ensures NothingLeftIn(t, Quotes(q, i + 1))
  {
    if IsMarker(q, i) {
      PlainAppends(r, Piece(q, i));
    } else {
      Snoc(r, q[i]);
    }
  }

  lemma {:induction false} NoMarkersNoChange(q: string, i: nat)
    requires i <= |q| && Markers(q, i) == 0
    ensures RewrittenTo(q, i) == q[..i]
  {
    if i > 0 {
      NoMarkersNoChange(q, i - 1);
      assert q[..i] == q[..i - 1] + [q[i - 1]];
    }
  }

  /** A rewritten query has no marker left, so rewriting it again changes nothing. */
  lemma RewriteIdempotent(q: string)
    ensures Rewritten(Rewritten(q)) == Rewritten(q)
  {
    var r := Rewritten(q);
    NothingLeft(q);
    NoMarkersNoChange(r, |r|);
    assert r[..|r|] == r;
  }
}
