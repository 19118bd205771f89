/** The Markdown code-fence handling that both providers apply to a model
    reply before decoding it. */
module CodeFence {
  import opened Strings

  const Fence: string := "```"

  /** For text starting with a fence: drop everything up to and including the
      first line break, if there is one, and then a trailing fence, if there is
      one. Nothing is trimmed here. */
  function Unfence(s: string): (r: string)
    ensures |r| <= |s|
    ensures IndexOfChar(s, '\n') == -1 && !EndsWith(s, Fence) ==> r == s
  {
    var nl := IndexOfChar(s, '\n');
    var a := if nl != -1 then s[nl + 1..] else s;
    if EndsWith(a, Fence) then a[..|a| - |Fence|] else a
  }

  /** A fenced block whose opening line carries an info string such as `json`
      gives back exactly its body. */
  lemma UnfenceBlock(info: string, body: string)
    requires '\n' !in info
    ensures Unfence(Fence + info + "\n" + body + Fence) == body
  {
    var s := Fence + info + "\n" + body + Fence;
    var k := |Fence + info|;
    assert s[k] == '\n';
    assert forall i :: 0 <= i < k ==> s[i] != '\n' by {
      forall i | 0 <= i < k ensures s[i] != '\n' {
        if i >= |Fence| { assert s[i] == info[i - |Fence|]; }
      }
    }
    assert IndexOfChar(s, '\n') == k;
    assert s[k + 1..] == body + Fence;
  }

  /** Without a closing fence only the opening line is dropped. */
  lemma UnfenceUnclosed(info: string, body: string)
    requires '\n' !in info
    requires !EndsWith(body, Fence)
    ensures Unfence(Fence + info + "\n" + body) == body
  {
    var s := Fence + info + "\n" + body;
    var k := |Fence + info|;
    assert s[k] == '\n';
    assert forall i :: 0 <= i < k ==> s[i] != '\n' by {
      forall i | 0 <= i < k ensures s[i] != '\n' {
        if i >= |Fence| { assert s[i] == info[i - |Fence|]; }
      }
    }
    assert IndexOfChar(s, '\n') == k;
    assert s[k + 1..] == body;
  }
}
