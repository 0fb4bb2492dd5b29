/// The bracket grammar every canonical string is written in:
/// `[key1=value1,key2=value2,...]`, keys in a fixed order, values inserted
/// verbatim, and `strings.Join` for the parts of a list.
module Canonical {

  /** Go's `strings.Join`: the parts in order with `sep` between neighbours. */
  function Join(parts: seq<string>, sep: string): string {
    if |parts| == 0 then ""
    else if |parts| == 1 then parts[0]
    else parts[0] + sep + Join(parts[1..], sep)
  }

  /** Joining two non-empty lists is joining each and putting `sep` between. */
  lemma {:induction false} JoinAppend(xs: seq<string>, ys: seq<string>, sep: string)
    requires xs != [] && ys != []
    ensures Join(xs + ys, sep) == Join(xs, sep) + sep + Join(ys, sep)
  {
    if |xs| == 1 {
      assert (xs + ys)[1..] == ys;
    } else {
      assert (xs + ys)[1..] == xs[1..] + ys;
      JoinAppend(xs[1..], ys, sep);
    }
  }

  /** Joining a list with one more part at the end. */
  lemma JoinSnoc(xs: seq<string>, p: string, sep: string)
    requires xs != []
    ensures Join(xs + [p], sep) == Join(xs, sep) + sep + p
  {
    JoinAppend(xs, [p], sep);
  }

  /** One `key=value` pair of a record. */
  datatype Entry = Entry(key: string, value: string)

  function Text(e: Entry): string {
    e.key + "=" + e.value
  }

  function Texts(es: seq<Entry>): seq<string> {
    seq(|es|, i requires 0 <= i < |es| => Text(es[i]))
  }

  function Keys(es: seq<Entry>): seq<string> {
    seq(|es|, i requires 0 <= i < |es| => es[i].key)
  }

  /** The record `[k1=v1,k2=v2,...]` of the given entries, in their order. */
  function Record(es: seq<Entry>): string {
    "[" + Join(Texts(es), ",") + "]"
  }

  /** A record always opens with '[' and closes with ']', so it is never empty. */
  lemma RecordBracketed(es: seq<Entry>)
    ensures |Record(es)| >= 2
    ensures Record(es)[0] == '[' && Record(es)[|Record(es)| - 1] == ']'
  {
  }

  /** The record text of the first `k + 1` entries extends that of the first `k`. */
  lemma RecordPrefixExtend(es: seq<Entry>, k: nat)
    requires 1 <= k < |es|
    ensures Join(Texts(es[..k + 1]), ",") == Join(Texts(es[..k]), ",") + "," + Text(es[k])
  {
    assert Texts(es[..k + 1]) == Texts(es[..k]) + [Text(es[k])];
    JoinSnoc(Texts(es[..k]), Text(es[k]), ",");
  }

  // A single `Sprintf` template writes a record left to right: "[" with the
  // first key and value, each later entry as its comma, key and value, then
  // "]". The lemmas below state this for templates of the lengths in use,
  // with the written pieces `pi` ("[key=" or ",key=") as parameters.

  /** Writing one more entry after the text of the entries so far. */
  lemma RecordSnoc(es: seq<Entry>, e: Entry, p: string, piece: string)
    requires es != []
    requires p == "[" + Join(Texts(es), ",")
    requires piece == "," + e.key + "="
    ensures p + piece + e.value == "[" + Join(Texts(es + [e]), ",")
  {
    assert Texts(es + [e]) == Texts(es) + [Text(e)];
    JoinSnoc(Texts(es), Text(e), ",");
  }

  lemma RecordOf4(
    p0: string, p1: string, p2: string, p3: string,
    k0: string, k1: string, k2: string, k3: string,
    v0: string, v1: string, v2: string, v3: string)
    requires p0 == "[" + k0 + "="
    requires p1 == "," + k1 + "="
    requires p2 == "," + k2 + "="
    requires p3 == "," + k3 + "="
    ensures p0 + v0 + p1 + v1 + p2 + v2 + p3 + v3 + "]" == Record([Entry(k0, v0), Entry(k1, v1), Entry(k2, v2), Entry(k3, v3)])
  {
    var es := [Entry(k0, v0)];
    var p := p0 + v0;
    RecordSnoc(es, Entry(k1, v1), p, p1);
    p, es := p + p1 + v1, es + [Entry(k1, v1)];
    RecordSnoc(es, Entry(k2, v2), p, p2);
    p, es := p + p2 + v2, es + [Entry(k2, v2)];
    RecordSnoc(es, Entry(k3, v3), p, p3);
    p, es := p + p3 + v3, es + [Entry(k3, v3)];
    assert es == [Entry(k0, v0), Entry(k1, v1), Entry(k2, v2), Entry(k3, v3)];
  }

  lemma RecordOf5(
    p0: string, p1: string, p2: string, p3: string, p4: string,
    k0: string, k1: string, k2: string, k3: string, k4: string,
    v0: string, v1: string, v2: string, v3: string, v4: string)
    requires p0 == "[" + k0 + "="
    requires p1 == "," + k1 + "="
    requires p2 == "," + k2 + "="
    requires p3 == "," + k3 + "="
    requires p4 == "," + k4 + "="
    ensures p0 + v0 + p1 + v1 + p2 + v2 + p3 + v3 + p4 + v4 + "]" == Record([Entry(k0, v0), Entry(k1, v1), Entry(k2, v2), Entry(k3, v3), Entry(k4, v4)])
  {
    var es := [Entry(k0, v0)];
    var p := p0 + v0;
    RecordSnoc(es, Entry(k1, v1), p, p1);
    p, es := p + p1 + v1, es + [Entry(k1, v1)];
    RecordSnoc(es, Entry(k2, v2), p, p2);
    p, es := p + p2 + v2, es + [Entry(k2, v2)];
    RecordSnoc(es, Entry(k3, v3), p, p3);
    p, es := p + p3 + v3, es + [Entry(k3, v3)];
    RecordSnoc(es, Entry(k4, v4), p, p4);
    p, es := p + p4 + v4, es + [Entry(k4, v4)];
    assert es == [Entry(k0, v0), Entry(k1, v1), Entry(k2, v2), Entry(k3, v3), Entry(k4, v4)];
  }

  lemma RecordOf6(
    p0: string, p1: string, p2: string, p3: string, p4: string, p5: string,
    k0: string, k1: string, k2: string, k3: string, k4: string, k5: string,
    v0: string, v1: string, v2: string, v3: string, v4: string, v5: string)
    requires p0 == "[" + k0 + "="
    requires p1 == "," + k1 + "="
    requires p2 == "," + k2 + "="
    requires p3 == "," + k3 + "="
    requires p4 == "," + k4 + "="
    requires p5 == "," + k5 + "="
    ensures p0 + v0 + p1 + v1 + p2 + v2 + p3 + v3 + p4 + v4 + p5 + v5 + "]" == Record([Entry(k0, v0), Entry(k1, v1), Entry(k2, v2), Entry(k3, v3), Entry(k4, v4), Entry(k5, v5)])
  {
    var es := [Entry(k0, v0)];
    var p := p0 + v0;
    RecordSnoc(es, Entry(k1, v1), p, p1);
    p, es := p + p1 + v1, es + [Entry(k1, v1)];
    RecordSnoc(es, Entry(k2, v2), p, p2);
    p, es := p + p2 + v2, es + [Entry(k2, v2)];
    RecordSnoc(es, Entry(k3, v3), p, p3);
    p, es := p + p3 + v3, es + [Entry(k3, v3)];
    RecordSnoc(es, Entry(k4, v4), p, p4);
    p, es := p + p4 + v4, es + [Entry(k4, v4)];
    RecordSnoc(es, Entry(k5, v5), p, p5);
    p, es := p + p5 + v5, es + [Entry(k5, v5)];
    assert es == [Entry(k0, v0), Entry(k1, v1), Entry(k2, v2), Entry(k3, v3), Entry(k4, v4), Entry(k5, v5)];
  }

  lemma RecordOf13(
    p0: string, p1: string, p2: string, p3: string, p4: string, p5: string, p6: string, p7: string, p8: string, p9: string, p10: string, p11: string, p12: string,
    k0: string, k1: string, k2: string, k3: string, k4: string, k5: string, k6: string, k7: string, k8: string, k9: string, k10: string, k11: string, k12: string,
    v0: string, v1: string, v2: string, v3: string, v4: string, v5: string, v6: string, v7: string, v8: string, v9: string, v10: string, v11: string, v12: string)
    requires p0 == "[" + k0 + "="
    requires p1 == "," + k1 + "="
    requires p2 == "," + k2 + "="
    requires p3 == "," + k3 + "="
    requires p4 == "," + k4 + "="
    requires p5 == "," + k5 + "="
    requires p6 == "," + k6 + "="
    requires p7 == "," + k7 + "="
    requires p8 == "," + k8 + "="
    requires p9 == "," + k9 + "="
    requires p10 == "," + k10 + "="
    requires p11 == "," + k11 + "="
    requires p12 == "," + k12 + "="
    ensures p0 + v0 + p1 + v1 + p2 + v2 + p3 + v3 + p4 + v4 + p5 + v5 + p6 + v6 + p7 + v7 + p8 + v8 + p9 + v9 + p10 + v10 + p11 + v11 + p12 + v12 + "]" == Record([Entry(k0, v0), Entry(k1, v1), Entry(k2, v2), Entry(k3, v3), Entry(k4, v4), Entry(k5, v5), Entry(k6, v6), Entry(k7, v7), Entry(k8, v8), Entry(k9, v9), Entry(k10, v10), Entry(k11, v11), Entry(k12, v12)])
  {
    var es := [Entry(k0, v0)];
    var p := p0 + v0;
    RecordSnoc(es, Entry(k1, v1), p, p1);
    p, es := p + p1 + v1, es + [Entry(k1, v1)];
    RecordSnoc(es, Entry(k2, v2), p, p2);
    p, es := p + p2 + v2, es + [Entry(k2, v2)];
    RecordSnoc(es, Entry(k3, v3), p, p3);
    p, es := p + p3 + v3, es + [Entry(k3, v3)];
    RecordSnoc(es, Entry(k4, v4), p, p4);
    p, es := p + p4 + v4, es + [Entry(k4, v4)];
    RecordSnoc(es, Entry(k5, v5), p, p5);
    p, es := p + p5 + v5, es + [Entry(k5, v5)];
    RecordSnoc(es, Entry(k6, v6), p, p6);
    p, es := p + p6 + v6, es + [Entry(k6, v6)];
    RecordSnoc(es, Entry(k7, v7), p, p7);
    p, es := p + p7 + v7, es + [Entry(k7, v7)];
    RecordSnoc(es, Entry(k8, v8), p, p8);
    p, es := p + p8 + v8, es + [Entry(k8, v8)];
    RecordSnoc(es, Entry(k9, v9), p, p9);
    p, es := p + p9 + v9, es + [Entry(k9, v9)];
    RecordSnoc(es, Entry(k10, v10), p, p10);
    p, es := p + p10 + v10, es + [Entry(k10, v10)];
    RecordSnoc(es, Entry(k11, v11), p, p11);
    p, es := p + p11 + v11, es + [Entry(k11, v11)];
    RecordSnoc(es, Entry(k12, v12), p, p12);
    p, es := p + p12 + v12, es + [Entry(k12, v12)];
    assert es == [Entry(k0, v0), Entry(k1, v1), Entry(k2, v2), Entry(k3, v3), Entry(k4, v4), Entry(k5, v5), Entry(k6, v6), Entry(k7, v7), Entry(k8, v8), Entry(k9, v9), Entry(k10, v10), Entry(k11, v11), Entry(k12, v12)];
  }

  // The writers that fill a `bytes.Buffer` emit a record piece by piece:
  // "[" and the first entry with its comma, each later entry with its comma
  // (in one write, or in three for a nested value), the last entry, then "]".
  // Each lemma below is one such write; `name` is the written "key=".

  lemma RecordWriteFirst(es: seq<Entry>, name: string, value: string)
    requires 1 <= |es|
    requires name == es[0].key + "=" && value == es[0].value
    ensures "[" + (name + value + ",") == "[" + Join(Texts(es[..1]), ",") + ","
  {
  }

  lemma RecordWrite(es: seq<Entry>, k: nat, before: string, piece: string)
    requires 1 <= k < |es|
    requires before == "[" + Join(Texts(es[..k]), ",") + ","
    requires piece == Text(es[k]) + ","
    ensures before + piece == "[" + Join(Texts(es[..k + 1]), ",") + ","
  {
    RecordPrefixExtend(es, k);
  }

  /** A later entry written in one piece. */
  lemma RecordWriteEntry(es: seq<Entry>, k: nat, before: string, name: string, value: string)
    requires 1 <= k < |es|
    requires before == "[" + Join(Texts(es[..k]), ",") + ","
    requires name == es[k].key + "=" && value == es[k].value
    ensures before + (name + value + ",") == "[" + Join(Texts(es[..k + 1]), ",") + ","
  {
    RecordWrite(es, k, before, name + value + ",");
  }

  /** A later entry whose value is a nested record, written as key, value, comma. */
  lemma RecordWriteNested(es: seq<Entry>, k: nat, before: string, name: string, value: string)
    requires 1 <= k < |es|
    requires before == "[" + Join(Texts(es[..k]), ",") + ","
    requires name == es[k].key + "=" && value == es[k].value
    ensures before + name + value + "," == "[" + Join(Texts(es[..k + 1]), ",") + ","
  {
    RecordWrite(es, k, before, name + value + ",");
  }

  /** A later entry whose value is a bracketed list, written as "key=[", the
      list body, "],". */
  lemma RecordWriteList(es: seq<Entry>, k: nat, before: string, opening: string, body: string)
    requires 1 <= k < |es|
    requires before == "[" + Join(Texts(es[..k]), ",") + ","
    requires opening == es[k].key + "=[" && es[k].value == "[" + body + "]"
    ensures before + opening + body + "]," == "[" + Join(Texts(es[..k + 1]), ",") + ","
  {
    RecordWrite(es, k, before, opening + body + "],");
  }

  /** The last entry, without a comma, and the closing bracket. */
  lemma RecordWriteLast(es: seq<Entry>, before: string, name: string, value: string)
    requires 2 <= |es|
    requires before == "[" + Join(Texts(es[..|es| - 1]), ",") + ","
    requires name == es[|es| - 1].key + "=" && value == es[|es| - 1].value
    ensures before + (name + value) + "]" == Record(es)
  {
    RecordPrefixExtend(es, |es| - 1);
    assert es[..|es|] == es;
  }

  predicate NoComma(s: string) {
    forall i :: 0 <= i < |s| ==> s[i] != ','
  }

  /** Two comma-free words followed by a comma can only be split one way. */
  lemma SplitAtComma(x: string, s: string, y: string, t: string)
    requires NoComma(x) && NoComma(y)
    requires x + "," + s == y + "," + t
    ensures x == y && s == t
  {
    var u, v := x + "," + s, y + "," + t;
    var m := if |x| < |y| then |x| else |y|;
    assert u[m] == v[m];
    assert |x| == |y|;
    assert x == u[..|x|] && y == v[..|y|];
    assert s == u[|x| + 1..] && t == v[|y| + 1..];
  }

  /** With the keys fixed and no comma in any value, the record text
      determines every value: the grammar is unambiguous for flat records. */
  lemma {:induction false} RecordInjective(es1: seq<Entry>, es2: seq<Entry>)
    requires Keys(es1) == Keys(es2)
    requires forall i :: 0 <= i < |es1| ==> NoComma(es1[i].key) && NoComma(es1[i].value)
    requires forall i :: 0 <= i < |es2| ==> NoComma(es2[i].value)
    requires Record(es1) == Record(es2)
    ensures es1 == es2
  {
    var b1, b2 := Join(Texts(es1), ","), Join(Texts(es2), ",");
    assert |Keys(es1)| == |es1| && |Keys(es2)| == |es2|;
    assert b1 == Record(es1)[1..|Record(es1)| - 1] && b2 == Record(es2)[1..|Record(es2)| - 1];
    if |es1| == 1 {
      assert es1[0].key == Keys(es1)[0] == Keys(es2)[0] == es2[0].key;
      assert Text(es1[0]) == Text(es2[0]);
      assert es1[0].value == Text(es1[0])[|es1[0].key| + 1..];
      assert es2[0].value == Text(es2[0])[|es2[0].key| + 1..];
    } else if |es1| > 1 {
      var r1, r2 := Join(Texts(es1[1..]), ","), Join(Texts(es2[1..]), ",");
      assert Texts(es1)[1..] == Texts(es1[1..]) && Texts(es2)[1..] == Texts(es2[1..]);
      assert es1[0].key == Keys(es1)[0] == Keys(es2)[0] == es2[0].key;
      NoCommaText(es1[0]);
      NoCommaText(es2[0]);
      SplitAtComma(Text(es1[0]), r1, Text(es2[0]), r2);
      assert es1[0].value == Text(es1[0])[|es1[0].key| + 1..];
      assert es2[0].value == Text(es2[0])[|es2[0].key| + 1..];
      assert Keys(es1[1..]) == Keys(es1)[1..] && Keys(es2[1..]) == Keys(es2)[1..];
      RecordInjective(es1[1..], es2[1..]);
      assert es1 == [es1[0]] + es1[1..] && es2 == [es2[0]] + es2[1..];
    }
  }

  lemma NoCommaText(e: Entry)
    requires NoComma(e.key) && NoComma(e.value)
    ensures NoComma(Text(e))
  {
    var t := Text(e);
    forall i | 0 <= i < |t| ensures t[i] != ',' {
      if i < |e.key| { assert t[i] == e.key[i]; }
      else if i > |e.key| { assert t[i] == e.value[i - |e.key| - 1]; }
    }
  }
}
