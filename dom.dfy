/** The parsed document as the rewrite passes see it: the elements in document
    order, each with its local name, its attributes and its text content. Replacing a
    node in its parent overwrites that element's slot; nothing else moves. */
module Dom {

  datatype Element = Element(tag: string, attrs: map<string, string>, text: string)

  function AsciiLowerChar(c: char): char
  {
    if 'A' <= c <= 'Z' then (c as int + 32) as char else c
  }

  function AsciiLower(s: string): string
  {
    seq(|s|, i requires 0 <= i < |s| => AsciiLowerChar(s[i]))
  }

  /** `link[rel="stylesheet"]`: in an HTML document the value of `rel` is matched
      ASCII case-insensitively, and as a whole (`"alternate stylesheet"` does not match). */
  predicate IsStylesheetLink(e: Element)
  {
    e.tag == "link" && "rel" in e.attrs && AsciiLower(e.attrs["rel"]) == "stylesheet"
  }

  /** `img` */
  predicate IsImage(e: Element)
  {
    e.tag == "img"
  }

  /** `script[src]`: a script that has a `src` attribute, even an empty one. */
  predicate IsExternalScript(e: Element)
  {
    e.tag == "script" && "src" in e.attrs
  }

  /** `getAttribute(name)` is neither null nor the empty string. */
  predicate HasValue(e: Element, name: string)
  {
    name in e.attrs && e.attrs[name] != ""
  }

  /** A pass that settles every element independently: each element is rewritten by
      `step`, which looks at that element only. */
  function EachElement(d: seq<Element>, step: Element -> Element): seq<Element>
  {
    seq(|d|, i requires 0 <= i < |d| => step(d[i]))
  }

  /** A document rewritten slot by slot, each slot by the step applied to its original
      value, is the document with every element rewritten. */
  lemma EachElementPointwise(d: seq<Element>, out: seq<Element>, step: Element -> Element)
    requires |out| == |d|
    requires forall k :: 0 <= k < |d| ==> out[k] == step(d[k])
    ensures out == EachElement(d, step)
  {
  }

  /** Running the task of element `i` alone. */
  function RunTask(d: seq<Element>, i: nat, step: Element -> Element): seq<Element>
    requires i < |d|
  {
    d[i := step(d[i])]
  }

  predicate InRange(order: seq<nat>, n: nat)
  {
    forall k :: 0 <= k < |order| ==> order[k] < n
  }

  predicate Distinct(order: seq<nat>)
  {
    forall k, l :: 0 <= k < l < |order| ==> order[k] != order[l]
  }

  /** The tasks run one after the other in the given completion order. */
  function RunInOrder(d: seq<Element>, order: seq<nat>, step: Element -> Element): seq<Element>
    requires InRange(order, |d|)
    decreases order
  {
    if order == [] then d else RunInOrder(RunTask(d, order[0], step), order[1..], step)
  }

  lemma {:induction false} RunInOrderAt(d: seq<Element>, order: seq<nat>, step: Element -> Element)
    requires InRange(order, |d|) && Distinct(order)
    ensures |RunInOrder(d, order, step)| == |d|
    ensures forall i :: 0 <= i < |d| ==>
      RunInOrder(d, order, step)[i] == if i in order then step(d[i]) else d[i]
    decreases order
  {
    if order != [] {
      var d' := RunTask(d, order[0], step);
      var rest := order[1..];
      assert InRange(rest, |d'|);
      assert Distinct(rest);
      RunInOrderAt(d', rest, step);
      forall i | 0 <= i < |d|
        ensures RunInOrder(d, order, step)[i] == if i in order then step(d[i]) else d[i]
      {
        if i == order[0] {
          assert i !in rest;
        } else {
          assert (i in order) == (i in rest);
        }
      }
    }
  }

  /** Whatever order the independent tasks complete in, once each element's task has
      run exactly once the document is the same as rewriting every element in place. */
  lemma CompletionOrderIrrelevant(d: seq<Element>, order: seq<nat>, step: Element -> Element)
    requires InRange(order, |d|) && Distinct(order)
    requires forall i :: 0 <= i < |d| ==> i in order
    ensures RunInOrder(d, order, step) == EachElement(d, step)
  {
    RunInOrderAt(d, order, step);
  }
}
