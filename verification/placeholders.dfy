/**
  Prompt templates and their placeholder tokens.

  A template is prose with bracketed placeholder tokens in it. The model keeps
  the prose opaque and records only where tokens stand: a template is a
  sequence of pieces, each either prose that contains no `[` or one token.
  `Flatten` gives the JavaScript string the template literal denotes.
 */
module Placeholders {
  import opened Strings

  /** The six placeholder spellings the month renderer replaces. */
  datatype Token =
    | ArtistName            // [Artist]
    | ArtistStyleLower      // [artist style]
    | ArtistStyleCapital    // [Artist style]
    | DogDescriptionLower   // [dog description]
    | DogDescriptionCapital // [Dog description]
    | ArtistDescription     // [artist description]

  function Spelling(k: Token): string
  {
    match k
    case ArtistName => "[Artist]"
    case ArtistStyleLower => "[artist style]"
    case ArtistStyleCapital => "[Artist style]"
    case DogDescriptionLower => "[dog description]"
    case DogDescriptionCapital => "[Dog description]"
    case ArtistDescription => "[artist description]"
  }

  /** Every spelling opens with `[` and has no other `[`. */
  lemma SpellingShape(k: Token)
    ensures |Spelling(k)| > 1 && Spelling(k)[0] == '['
    ensures NoChar(Spelling(k)[1..], '[')
  {
    var w := Spelling(k);
    forall i | 0 <= i < |w[1..]| ensures w[1..][i] != '[' {
      assert w[1..][i] == w[i + 1];
    }
  }

  /** No spelling is a prefix of another: two different tokens differ at an index
      inside both spellings. */
  lemma SpellingsDiffer(a: Token, b: Token) returns (d: nat)
    requires a != b
    ensures d < |Spelling(a)| && d < |Spelling(b)| && Spelling(a)[d] != Spelling(b)[d]
  {
    var x, y := Spelling(a), Spelling(b);
    if x[1] != y[1] {
      d := 1;
    } else if x[1] == 'A' {
      d := 7;
    } else {
      d := 8;
    }
  }

  datatype Piece = Text(text: string) | Slot(token: Token)

  type Template = seq<Piece>

  /** Prose pieces never contain `[`, so every `[` in a template opens a token. */
  predicate WellFormed(t: Template)
  {
    forall i :: 0 <= i < |t| ==> t[i].Text? ==> NoChar(t[i].text, '[')
  }

  function PieceText(p: Piece): string
  {
    match p
    case Text(s) => s
    case Slot(k) => Spelling(k)
  }

  /** The template as a JavaScript string literal. */
  function Flatten(t: Template): string
  {
    if t == [] then "" else PieceText(t[0]) + Flatten(t[1..])
  }

  /** The template's tokens, in order: what characterises a template here. */
  function Slots(t: Template): (r: seq<Token>)
    ensures forall k :: k in r <==> Slot(k) in t
  {
    if t == [] then []
    else if t[0].Slot? then [t[0].token] + Slots(t[1..])
    else Slots(t[1..])
  }

  function FillPiece(p: Piece, k: Token, v: string): Piece
  {
    if p == Slot(k) then Text(v) else p
  }

  /** Every slot holding `k` becomes the prose `v`; everything else stays. */
  function Fill(t: Template, k: Token, v: string): (r: Template)
    ensures |r| == |t|
    ensures forall i :: 0 <= i < |t| ==> r[i] == FillPiece(t[i], k, v)
  {
    if t == [] then [] else [FillPiece(t[0], k, v)] + Fill(t[1..], k, v)
  }

  /**
    Replacing every occurrence of a token's spelling in the template's string
    is the same as filling that token's slots: no prose or other token can
    produce or hide an occurrence.
   */
  lemma {:induction false} ReplaceAllFills(t: Template, k: Token, v: string)
    requires WellFormed(t)
    ensures ReplaceAll(Flatten(t), Spelling(k), v) == Flatten(Fill(t, k, v))
  {
    var pat := Spelling(k);
    SpellingShape(k);
    if t != [] {
      var rest := Flatten(t[1..]);
      assert WellFormed(t[1..]) by {
        forall i | 0 <= i < |t[1..]| ensures t[1..][i].Text? ==> NoChar(t[1..][i].text, '[') {
          assert t[1..][i] == t[i + 1];
        }
      }
      ReplaceAllFills(t[1..], k, v);
      assert Fill(t, k, v)[1..] == Fill(t[1..], k, v);
      match t[0]
      case Text(s) =>
        ReplaceAllSkips(s, rest, pat, v);
      case Slot(j) =>
        if j == k {
          ReplaceAllAtFront(rest, pat, v);
        } else {
          var d := SpellingsDiffer(j, k);
          SpellingShape(j);
          ReplaceAllSkipsWord(Spelling(j), rest, pat, v, d);
        }
    }
  }

  /** Filling a token with prose free of `[` keeps the template well formed and
      removes exactly that token from its skeleton. */
  lemma {:induction false} FillKeepsShape(t: Template, k: Token, v: string)
    requires WellFormed(t) && NoChar(v, '[')
    ensures WellFormed(Fill(t, k, v))
    ensures Slots(Fill(t, k, v)) == Without(Slots(t), k)
  {
    if t != [] {
      assert WellFormed(t[1..]) by {
        forall i | 0 <= i < |t[1..]| ensures t[1..][i].Text? ==> NoChar(t[1..][i].text, '[') {
          assert t[1..][i] == t[i + 1];
        }
      }
      FillKeepsShape(t[1..], k, v);
      assert Fill(t, k, v)[1..] == Fill(t[1..], k, v);
    }
  }

  function Without(ks: seq<Token>, k: Token): (r: seq<Token>)
    ensures k !in r
    ensures forall j :: j != k ==> (j in r <==> j in ks)
  {
    if ks == [] then []
    else if ks[0] == k then Without(ks[1..], k)
    else [ks[0]] + Without(ks[1..], k)
  }

  /** A template with no tokens left and no `[` in its prose has no `[` at all. */
  lemma {:induction false} FlattenNoBracket(t: Template)
    requires WellFormed(t) && Slots(t) == []
    ensures NoChar(Flatten(t), '[')
  {
    if t != [] {
      assert t[0].Text?;
      assert WellFormed(t[1..]) by {
        forall i | 0 <= i < |t[1..]| ensures t[1..][i].Text? ==> NoChar(t[1..][i].text, '[') {
          assert t[1..][i] == t[i + 1];
        }
      }
      FlattenNoBracket(t[1..]);
      var a, b := t[0].text, Flatten(t[1..]);
      forall i | 0 <= i < |a + b| ensures (a + b)[i] != '[' {
        if i < |a| { assert (a + b)[i] == a[i]; } else { assert (a + b)[i] == b[i - |a|]; }
      }
    }
  }

  /** The template's string is the pieces before `i`, piece `i`, and the pieces after it. */
  lemma {:induction false} FlattenSplit(t: Template, i: nat)
    requires i < |t|
    ensures Flatten(t) == Flatten(t[..i]) + PieceText(t[i]) + Flatten(t[i + 1..])
  {
    if i == 0 {
      assert t[..0] == [];
    } else {
      FlattenSplit(t[1..], i - 1);
      assert t[1..][..i - 1] == t[1..i];
      assert t[1..][i - 1] == t[i];
      assert t[1..][i..] == t[i + 1..];
      assert t[..i][0] == t[0] && t[..i][1..] == t[1..i];
    }
  }

  /** The prose of a piece of a template appears in the template's string. */
  lemma PieceOccurs(t: Template, i: nat)
    requires i < |t|
    ensures Contains(Flatten(t), PieceText(t[i]))
  {
    FlattenSplit(t, i);
    var pre := Flatten(t[..i]);
    var w := PieceText(t[i]);
    var s := Flatten(t);
    assert s[|pre|..|pre| + |w|] == w;
    assert OccursAt(s, w, |pre|);
  }
}
