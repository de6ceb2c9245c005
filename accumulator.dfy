/** The `for await` loop both brief handlers run over the model's stream:
    every `text` delta is appended to the draft and forwarded to the UI;
    every other delta is ignored. */
module Accumulator {
  import opened Values
  import opened DocumentStream

  /** The texts of the `text` deltas, in stream order. */
  function TextsOf(ds: seq<Delta>): seq<string>
    decreases |ds|
  {
    if ds == [] then []
    else
      var last := ds[|ds| - 1];
      TextsOf(ds[..|ds| - 1]) + (if last.Text? then [last.text] else [])
  }

  /** The texts glued together: what `draft += text` builds from "". */
  function Concat(ts: seq<string>): string
    decreases |ts|
  {
    if ts == [] then "" else Concat(ts[..|ts| - 1]) + ts[|ts| - 1]
  }

  /** One transient text-delta write per text, in order. */
  function TextWrites(ts: seq<string>): seq<StreamPart>
    decreases |ts|
  {
    if ts == [] then [] else TextWrites(ts[..|ts| - 1]) + [DataTextDelta(ts[|ts| - 1])]
  }

  /** The loop at artifacts/brief/server.ts:99-113 (and 146-160). Each text
      delta is forwarded as it arrives; when the stream throws, the draft is
      lost but the writes already made stay in the stream. */
  method ForwardDeltas(stream: DataStream, s: ModelStream) returns (r: Outcome<string>)
    modifies stream
    ensures stream.parts == old(stream.parts) + TextWrites(TextsOf(s.deltas))
    ensures r == if s.failure.Some? then Threw(s.failure.value) else Returned(Concat(TextsOf(s.deltas)))
  {
    var draft := "";
    var i := 0;
    while i < |s.deltas|
      invariant 0 <= i <= |s.deltas|
      invariant draft == Concat(TextsOf(s.deltas[..i]))
      invariant stream.parts == old(stream.parts) + TextWrites(TextsOf(s.deltas[..i]))
    {
      var done := TextsOf(s.deltas[..i]);
      assert s.deltas[..i + 1][..i] == s.deltas[..i];
      match s.deltas[i] {
        case Text(t) =>
          draft := draft + t;
          stream.Write(DataTextDelta(t));
          assert TextsOf(s.deltas[..i + 1]) == done + [t];
          assert (done + [t])[..|done|] == done;
        case NonText(_) =>
          assert TextsOf(s.deltas[..i + 1]) == done;
      }
      i := i + 1;
    }
    assert s.deltas[..i] == s.deltas;
    if s.failure.Some? {
      r := Threw(s.failure.value);
    } else {
      r := Returned(draft);
    }
  }

  /** Reading a stream in two pieces collects the texts of the first piece,
      then those of the second: texts keep their stream order. */
  lemma {:induction false} TextsOfAppend(a: seq<Delta>, b: seq<Delta>)
    ensures TextsOf(a + b) == TextsOf(a) + TextsOf(b)
    decreases |b|
  {
    if b == [] {
      assert a + b == a;
    } else {
      var b' := b[..|b| - 1];
      assert (a + b)[..|a + b| - 1] == a + b';
      TextsOfAppend(a, b');
    }
  }

  /** A single delta contributes its text if it is a `text` delta, nothing otherwise. */
  lemma TextsOfSingle(d: Delta)
    ensures TextsOf([d]) == if d.Text? then [d.text] else []
  {
    assert [d][..0] == [];
  }

  /** A non-text delta anywhere in the stream changes nothing: neither the
      writes nor the draft. */
  lemma NonTextIgnored(a: seq<Delta>, kind: string, b: seq<Delta>)
    ensures TextsOf(a + [NonText(kind)] + b) == TextsOf(a + b)
  {
    TextsOfAppend(a + [NonText(kind)], b);
    TextsOfAppend(a, [NonText(kind)]);
    TextsOfSingle(NonText(kind));
    TextsOfAppend(a, b);
  }

  /** The draft of two pieces is the draft of the first followed by that of the second. */
  lemma {:induction false} ConcatAppend(s: seq<string>, t: seq<string>)
    ensures Concat(s + t) == Concat(s) + Concat(t)
    decreases |t|
  {
    if t == [] {
      assert s + t == s;
    } else {
      var t' := t[..|t| - 1];
      assert (s + t)[..|s + t| - 1] == s + t';
      ConcatAppend(s, t');
    }
  }

  /** The k-th write is the k-th text, verbatim, and there is one write per text. */
  lemma {:induction false} TextWritesAt(ts: seq<string>, k: nat)
    requires k < |ts|
    ensures |TextWrites(ts)| == |ts|
    ensures TextWrites(ts)[k] == DataTextDelta(ts[k])
    decreases |ts|
  {
    if k < |ts| - 1 {
      TextWritesAt(ts[..|ts| - 1], k);
    } else if |ts| > 1 {
      TextWritesAt(ts[..|ts| - 1], 0);
    }
  }

  /** Every text write carries a text delta, so no other kind of part is
      produced by the loop. */
  lemma {:induction false} TextWritesAreTextDeltas(ts: seq<string>)
    ensures forall p :: p in TextWrites(ts) ==> p.DataTextDelta?
    decreases |ts|
  {
    if ts != [] {
      TextWritesAreTextDeltas(ts[..|ts| - 1]);
    }
  }

  /** The fragments "A", "B", "C" are forwarded in that order and the draft is "ABC". */
  lemma ForwardExample()
    ensures TextWrites(TextsOf([Text("A"), Text("B"), Text("C")]))
         == [DataTextDelta("A"), DataTextDelta("B"), DataTextDelta("C")]
    ensures Concat(TextsOf([Text("A"), Text("B"), Text("C")])) == "ABC"
  {
    var ds := [Text("A"), Text("B"), Text("C")];
    assert ds[..2][..1][..0] == [];
    assert TextsOf(ds[..2][..1]) == ["A"];
    assert ds[..2][..1] == ds[..1];
    assert TextsOf(ds[..2]) == ["A", "B"];
    assert TextsOf(ds) == ["A", "B", "C"];
    var ts := ["A", "B", "C"];
    assert ts[..2][..1][..0] == [];
    assert ts[..2][..1] == ["A"];
    assert ts[..2] == ["A", "B"];
    assert Concat(["A"]) == "A";
    assert Concat(["A", "B"]) == "AB";
    assert TextWrites(["A"]) == [DataTextDelta("A")];
    assert TextWrites(["A", "B"]) == [DataTextDelta("A"), DataTextDelta("B")];
  }
}
