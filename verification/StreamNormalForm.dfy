/**
 * What the normal form of a stream is, apart from how it is computed: which
 * streams are normal, that normalizing leaves exactly those alone, and what it
 * keeps of the others.
 */
module StreamNormalForm {
  import opened Basics
  import opened StreamRoundTrip

  ghost predicate Speaking(deltas: seq<string>) {
    forall k :: 0 <= k < |deltas| ==> deltas[k] != ""
  }

  predicate NormalPiece(p: Piece) {
    !p.ThinkingPiece? && (p.TextPiece? ==> p.deltas != [])
  }

  /** No thinking, no empty fragment, no text block without text, no two text blocks in a row. */
  ghost predicate IsNormal(ps: seq<Piece>) {
    && (forall k :: 0 <= k < |ps| ==> NormalPiece(ps[k]) && Speaking(ps[k].deltas))
    && forall k :: 0 < k < |ps| ==> !(ps[k - 1].TextPiece? && ps[k].TextPiece?)
  }

  lemma {:induction false} NonEmptySpeaks(deltas: seq<string>)
    ensures Speaking(NonEmpty(deltas))
    ensures Speaking(deltas) ==> NonEmpty(deltas) == deltas
  {
    if deltas != [] { NonEmptySpeaks(deltas[..|deltas| - 1]); }
  }

  lemma AddTextNormal(ps: seq<Piece>, deltas: seq<string>)
    requires IsNormal(ps) && Speaking(deltas)
    ensures IsNormal(AddText(ps, deltas))
  {
    var out := AddText(ps, deltas);
    if deltas != [] && ps != [] && ps[|ps| - 1].TextPiece? {
      assert forall k :: 0 <= k < |out| - 1 ==> out[k] == ps[k];
    }
  }

  lemma ToolNormal(ps: seq<Piece>, p: Piece)
    requires IsNormal(ps) && p.ToolPiece? && Speaking(p.deltas)
    ensures IsNormal(ps + [p])
  {
    var out := ps + [p];
    assert forall k :: 0 <= k < |ps| ==> out[k] == ps[k];
  }

  lemma {:induction false} GivesNormal(ps: seq<Piece>)
    ensures IsNormal(Normalize(ps))
  {
    if ps != [] {
      var front, p := ps[..|ps| - 1], ps[|ps| - 1];
      GivesNormal(front);
      NonEmptySpeaks(p.deltas);
      match p
      case TextPiece(deltas) => AddTextNormal(Normalize(front), NonEmpty(deltas));
      case ThinkingPiece(_) =>
      case ToolPiece(id, name, deltas) => ToolNormal(Normalize(front), ToolPiece(id, name, NonEmpty(deltas)));
    }
  }

  lemma NormalFront(ps: seq<Piece>)
    requires IsNormal(ps) && ps != []
    ensures
      var front, p := ps[..|ps| - 1], ps[|ps| - 1];
      IsNormal(front) && NormalPiece(p) && Speaking(p.deltas) &&
        (front != [] && p.TextPiece? ==> !front[|front| - 1].TextPiece?)
  {
    var front := ps[..|ps| - 1];
    assert forall k :: 0 <= k < |front| ==> front[k] == ps[k];
  }

  lemma {:induction false} NormalStays(ps: seq<Piece>)
    requires IsNormal(ps)
    ensures Normalize(ps) == ps
  {
    if ps != [] {
      var front, p := ps[..|ps| - 1], ps[|ps| - 1];
      NormalFront(ps);
      NormalStays(front);
      NonEmptySpeaks(p.deltas);
      assert front + [p] == ps;
    }
  }

  /** Normalizing makes a stream normal, and changes exactly those that are not. */
  lemma NormalizeIsNormal(ps: seq<Piece>)
    ensures IsNormal(Normalize(ps))
    ensures Normalize(ps) == ps <==> IsNormal(ps)
  {
    GivesNormal(ps);
    if IsNormal(ps) { NormalStays(ps); }
  }

  function Joined(deltas: seq<string>): string {
    if deltas == [] then "" else Joined(deltas[..|deltas| - 1]) + deltas[|deltas| - 1]
  }

  /** The text of the whole message. */
  function TextOf(ps: seq<Piece>): string {
    if ps == [] then ""
    else TextOf(ps[..|ps| - 1]) + if ps[|ps| - 1].TextPiece? then Joined(ps[|ps| - 1].deltas) else ""
  }

  datatype ToolCall = ToolCall(id: string, name: string, arguments: string)

  /** The tool calls of the whole message. */
  function CallsOf(ps: seq<Piece>): seq<ToolCall> {
    if ps == [] then []
    else
      var p := ps[|ps| - 1];
      CallsOf(ps[..|ps| - 1]) + if p.ToolPiece? then [ToolCall(p.id, p.name, Joined(p.deltas))] else []
  }

  lemma {:induction false} JoinedNonEmpty(deltas: seq<string>)
    ensures Joined(NonEmpty(deltas)) == Joined(deltas)
  {
    if deltas != [] {
      var front := deltas[..|deltas| - 1];
      JoinedNonEmpty(front);
      JoinedAppend(NonEmpty(front), if deltas[|deltas| - 1] == "" then [] else [deltas[|deltas| - 1]]);
    }
  }

  lemma {:induction false} JoinedAppend(a: seq<string>, b: seq<string>)
    ensures Joined(a + b) == Joined(a) + Joined(b)
  {
    if b == [] {
      assert a + b == a;
    } else {
      var front, last := b[..|b| - 1], b[|b| - 1];
      JoinedAppend(a, front);
      assert (a + b)[..|a + b| - 1] == a + front;
      Assoc(Joined(a), Joined(front), last);
    }
  }

  lemma PieceSnoc(ps: seq<Piece>, p: Piece)
    ensures TextOf(ps + [p]) == TextOf(ps) + if p.TextPiece? then Joined(p.deltas) else ""
    ensures CallsOf(ps + [p]) == CallsOf(ps) + if p.ToolPiece? then [ToolCall(p.id, p.name, Joined(p.deltas))] else []
  {
    assert (ps + [p])[..|ps|] == ps;
  }

  lemma AddTextSays(ps: seq<Piece>, deltas: seq<string>)
    ensures TextOf(AddText(ps, deltas)) == TextOf(ps) + Joined(deltas)
    ensures CallsOf(AddText(ps, deltas)) == CallsOf(ps)
  {
    if deltas != [] {
      if ps != [] && ps[|ps| - 1].TextPiece? {
        var front, last := ps[..|ps| - 1], ps[|ps| - 1];
        assert ps == front + [last];
        PieceSnoc(front, last);
        PieceSnoc(front, TextPiece(last.deltas + deltas));
        JoinedAppend(last.deltas, deltas);
        Assoc(TextOf(front), Joined(last.deltas), Joined(deltas));
      } else {
        PieceSnoc(ps, TextPiece(deltas));
      }
    }
  }

  /** The normal form says what the stream says: its text, and its tool calls in order. */
  lemma {:induction false} NormalizeSays(ps: seq<Piece>)
    ensures TextOf(Normalize(ps)) == TextOf(ps)
    ensures CallsOf(Normalize(ps)) == CallsOf(ps)
  {
    if ps != [] {
      var front, p := ps[..|ps| - 1], ps[|ps| - 1];
      NormalizeSays(front);
      JoinedNonEmpty(p.deltas);
      match p
      case TextPiece(deltas) => AddTextSays(Normalize(front), NonEmpty(deltas));
      case ThinkingPiece(_) =>
      case ToolPiece(id, name, deltas) => PieceSnoc(Normalize(front), ToolPiece(id, name, NonEmpty(deltas)));
    }
  }
}
