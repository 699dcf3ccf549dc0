/** Splitting a hostname into labels. */
module Labels {
  const MAX_LABELS: nat := 10

  /** How far the first label of `view` reaches. */
  function DotAt(view: string): (n: nat)
    ensures n <= |view| && '.' !in view[..n] && (n < |view| ==> view[n] == '.')
  {
    if view == "" || view[0] == '.' then 0
    else
      assert forall n | 0 <= n < |view| :: view[..n + 1] == [view[0]] + view[1..][..n];
      1 + DotAt(view[1..])
  }

  /** What is left behind the first label and its dot. */
  function Behind(view: string): (rest: string)
    ensures view != "" ==> |rest| < |view|
  {
    var n := DotAt(view);
    view[if n + 1 <= |view| then n + 1 else |view|..]
  }

  function Split(view: string): seq<string>
    decreases |view|
  {
    if view == "" then [] else [view[..DotAt(view)]] + Split(Behind(view))
  }

  lemma SplitStep(view: string)
    requires view != ""
    ensures Split(view) == [view[..DotAt(view)]] + Split(Behind(view))
  {
  }

  lemma SplitOn(done: seq<string>, view: string)
    requires view != ""
    ensures done + Split(view) == done + [view[..DotAt(view)]] + Split(Behind(view))
  {
    hide DotAt, Behind, Split;
    SplitStep(view);
  }

  lemma SplitNone()
    ensures Split("") == []
  {
  }

  function Join(labels: seq<string>): string {
    if labels == [] then ""
    else if |labels| == 1 then labels[0]
    else labels[0] + "." + Join(labels[1..])
  }

  lemma {:induction false} SplitNonempty(view: string)
    ensures Split(view) == [] <==> view == ""
    ensures forall i | 0 <= i < |Split(view)| :: '.' !in Split(view)[i]
    decreases |view|
  {
    if view != "" { SplitNonempty(Behind(view)); }
  }

  lemma CutAt(view: string, n: nat)
    requires n < |view|
    ensures view == view[..n] + [view[n]] + view[n + 1..]
  {
  }

  lemma ViewParts(view: string)
    requires view != ""
    ensures if DotAt(view) < |view| then view == view[..DotAt(view)] + "." + Behind(view)
            else view == view[..DotAt(view)] && Behind(view) == ""
  {
    hide DotAt;
    var n := DotAt(view);
    if n < |view| {
      CutAt(view, n);
      assert Behind(view) == view[n + 1..];
    } else {
      assert view[..n] == view;
    }
  }

  /** The labels joined by dots are the hostname, or all of it but a trailing dot. */
  lemma {:induction false} JoinSplit(view: string)
    ensures Join(Split(view)) == view || Join(Split(view)) + "." == view
    decreases |view|
  {
    hide DotAt, Behind, Join;
    if view == "" {
      JoinNone();
    } else {
      var first, rest := view[..DotAt(view)], Behind(view);
      ViewParts(view);
      JoinSplit(rest);
      SplitNonempty(rest);
      JoinFirst(first, Split(rest));
      if rest == "" {
        assert first + "." + rest == first + ".";
      } else {
        assert first + "." + (Join(Split(rest)) + ".") == first + "." + Join(Split(rest)) + ".";
      }
    }
  }

  lemma JoinNone()
    ensures Join([]) == ""
  {
  }

  lemma JoinFirst(first: string, labels: seq<string>)
    ensures Join([first] + labels) == if labels == [] then first else first + "." + Join(labels)
  {
    assert ([first] + labels)[1..] == labels;
  }
}
