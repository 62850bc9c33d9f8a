/** The purge queue's de-duplication. On every request the plugin reloads the
    stored list and keeps it through `array_unique`, which keeps the first
    occurrence of each URL in order. */
module PurgeQueue {
  import opened Base

  /** Reference definition, read from the back: the last element survives
      exactly when it does not occur earlier. */
  function FirstOccurrences<T(==)>(s: seq<T>): seq<T>
    decreases |s|
  {
    if |s| == 0 then []
    else
      var init := s[..|s| - 1];
      FirstOccurrences(init) + (if s[|s| - 1] in init then [] else [s[|s| - 1]])
  }

  /** `array_unique` as the PHP runtime computes it, scanning from the front
      and remembering what it has seen. */
  method ArrayUnique<T(==)>(s: seq<T>) returns (r: seq<T>)
    ensures r == FirstOccurrences(s)
    ensures NoDuplicates(r)
    ensures forall x :: x in r <==> x in s
  {
    r := [];
    var seen: set<T> := {};
    var i := 0;
    while i < |s|
      invariant 0 <= i <= |s|
      invariant r == FirstOccurrences(s[..i])
      invariant forall x :: x in seen <==> x in s[..i]
    {
      assert s[..i + 1][..i] == s[..i];
      if s[i] !in seen {
        r := r + [s[i]];
        seen := seen + {s[i]};
      }
      i := i + 1;
    }
    assert s[..|s|] == s;
    FirstOccurrencesSound(s);
  }

  /** The de-duplicated queue holds each URL once, and exactly the URLs of
      the input. */
  lemma {:induction false} FirstOccurrencesSound<T>(s: seq<T>)
    ensures NoDuplicates(FirstOccurrences(s))
    ensures forall x :: x in FirstOccurrences(s) <==> x in s
    decreases |s|
  {
    if |s| > 0 {
      var init := s[..|s| - 1];
      var last := s[|s| - 1];
      FirstOccurrencesSound(init);
      assert s == init + [last];
    }
  }

  /** A queue without duplicates survives de-duplication unchanged. */
  lemma {:induction false} FirstOccurrencesOfDistinct<T>(s: seq<T>)
    requires NoDuplicates(s)
    ensures FirstOccurrences(s) == s
    decreases |s|
  {
    if |s| > 0 {
      var init := s[..|s| - 1];
      assert NoDuplicates(init);
      FirstOccurrencesOfDistinct(init);
      assert s[|s| - 1] !in init;
      assert init + [s[|s| - 1]] == s;
    }
  }

  /** De-duplicating twice is de-duplicating once. */
  lemma FirstOccurrencesIdempotent<T>(s: seq<T>)
    ensures FirstOccurrences(FirstOccurrences(s)) == FirstOccurrences(s)
  {
    FirstOccurrencesSound(s);
    FirstOccurrencesOfDistinct(FirstOccurrences(s));
  }

  /** Keeping first occurrences keeps the input's order: appending to the
      queue appends the new, unseen URLs after what was already kept. */
  lemma {:induction false} FirstOccurrencesAppend<T>(s: seq<T>, t: seq<T>)
    ensures FirstOccurrences(s) <= FirstOccurrences(s + t)
    decreases |t|
  {
    if |t| == 0 {
      assert s + t == s;
    } else {
      var t' := t[..|t| - 1];
      FirstOccurrencesAppend(s, t');
      assert (s + t)[..|s + t| - 1] == s + t';
    }
  }
}
