/**
 * The post-processing of the diagram flow: the Mermaid source returned by
 * the model has its code fences removed and is trimmed; a missing source
 * and every other failure are reported with one fixed prefix.
 */
module Diagram {
  import opened Wrappers
  import opened Text
  import opened Errors

  const Fence: string := ['`', '`', '`']
  const MermaidFence: string := Fence + "mermaid\n"

  const FailurePrefix: string := "Failed to generate diagram script. Reason: "
  const NoCodeMessage: string := "AI did not return any Mermaid code."

  /** `code.replace(/```mermaid\n|```/g, '')`: scanning left to right, an
      opening fence is removed where one starts (tried first), otherwise a
      bare fence, and every other character is kept. */
  function StripFences(s: string): (r: string)
    ensures |r| <= |s|
    decreases |s|
  {
    if s == [] then []
    else if StartsWith(s, MermaidFence) then StripFences(s[|MermaidFence|..])
    else if StartsWith(s, Fence) then StripFences(s[|Fence|..])
    else [s[0]] + StripFences(s[1..])
  }

  /** The cleaned Mermaid source. */
  function CleanMermaid(code: string): (r: string)
    ensures r == [] || (!IsWhitespace(r[0]) && !IsWhitespace(r[|r| - 1]))
  {
    Trim(StripFences(code))
  }

  /** `e instanceof Error ? e.message : String(e)`. */
  function Describe(e: Thrown): (d: string)
    ensures e.NonError? ==> d == e.text
    ensures !e.NonError? ==> Some(d) == ErrorMessage(e)
  {
    match e
    case NonError(text) => text
    case _ => ErrorMessage(e).value
  }

  /** The flow body. `output` is what the prompt returned: a thrown value,
      or an output whose `mermaidCode` may be missing (`None`). The result
      is the cleaned code or the message of the error the flow throws. */
  function GenerateDiagram(output: Result<Option<string>, Thrown>): (r: Result<string, string>)
    ensures r.Failure? ==> StartsWith(r.error, FailurePrefix)
    ensures output.Success? && (output.value.None? || output.value.value == []) ==>
              r == Failure(FailurePrefix + NoCodeMessage)
    ensures output.Failure? ==> r == Failure(FailurePrefix + Describe(output.error))
    ensures output.Success? && output.value.Some? && output.value.value != [] ==>
              r == Success(CleanMermaid(output.value.value))
  {
    match output
    case Failure(e) => Failure(FailurePrefix + Describe(e))
    case Success(code) =>
      if code.None? || code.value == [] then Failure(FailurePrefix + NoCodeMessage)
      else Success(CleanMermaid(code.value))
  }

  // ---------------------------------------------------------------------
  // Properties

  /** Text without a backtick is only trimmed. */
  lemma {:induction false} StripWithoutBackticks(s: string)
    requires forall i | 0 <= i < |s| :: s[i] != '`'
    ensures StripFences(s) == s
    ensures CleanMermaid(s) == Trim(s)
    decreases |s|
  {
    if s != [] {
      assert !StartsWith(s, MermaidFence) && !StartsWith(s, Fence) by {
        assert s[0] != '`';
      }
      StripWithoutBackticks(s[1..]);
    }
  }

  /** A string made only of fences and whitespace. */
  predicate FencesAndWhitespace(s: string)
    decreases |s|
  {
    || s == []
    || (StartsWith(s, MermaidFence) && FencesAndWhitespace(s[|MermaidFence|..]))
    || (StartsWith(s, Fence) && FencesAndWhitespace(s[|Fence|..]))
    || (IsWhitespace(s[0]) && FencesAndWhitespace(s[1..]))
  }

  lemma {:induction false} StripLeavesWhitespace(s: string)
    requires FencesAndWhitespace(s)
    ensures AllWhitespace(StripFences(s))
    decreases |s|
  {
    if s != [] {
      if StartsWith(s, MermaidFence) {
        // a bare fence followed by "mermaid" is not fences and whitespace
        var after := s[|Fence|..];
        assert after[0] == 'm';
        assert !FencesAndWhitespace(after);
        StripLeavesWhitespace(s[|MermaidFence|..]);
      } else if StartsWith(s, Fence) {
        StripLeavesWhitespace(s[|Fence|..]);
      } else {
        assert s[0] == '`' ==> !FencesAndWhitespace(s) by {
          assert !IsWhitespace('`');
        }
        StripLeavesWhitespace(s[1..]);
      }
    }
  }

  /** Fences and whitespace alone clean to the empty string, which the flow
      returns as a success: emptiness is only checked before cleaning. */
  lemma OnlyFencesGiveEmptyCode(s: string)
    requires s != [] && FencesAndWhitespace(s)
    ensures GenerateDiagram(Success(Some(s))) == Success([])
  {
    StripLeavesWhitespace(s);
    TrimAllWhitespace(StripFences(s));
  }

  /** A character kept at the front of the result. */
  lemma KeptHead(s: string)
    requires s != [] && s[0] != '`'
    ensures StripFences(s) == [s[0]] + StripFences(s[1..])
  {
    assert MermaidFence[0] == '`' && Fence[0] == '`';
    assert |s| < |MermaidFence| || s[..|MermaidFence|][0] != MermaidFence[0];
    assert |s| < |Fence| || s[..|Fence|][0] != Fence[0];
  }

  /** Text without a backtick, closed by a fence, loses only the fence. */
  lemma {:induction false} ClosedByFence(c: string)
    requires forall i | 0 <= i < |c| :: c[i] != '`'
    ensures StripFences(c + Fence) == c
    decreases |c|
  {
    if c == [] {
      assert c + Fence == Fence;
      assert StartsWith(Fence, Fence) && !StartsWith(Fence, MermaidFence);
      assert Fence[|Fence|..] == [];
    } else {
      KeptHead(c + Fence);
      assert (c + Fence)[1..] == c[1..] + Fence;
      ClosedByFence(c[1..]);
    }
  }

  /** An opening fence is removed where the text starts with one. */
  lemma OpeningFence(a: string, b: string)
    ensures StripFences(MermaidFence + a + b) == StripFences(a + b)
  {
    var s := MermaidFence + a + b;
    assert s == MermaidFence + (a + b);
    assert s[..|MermaidFence|] == MermaidFence;
    assert s[|MermaidFence|..] == a + b;
  }

  /** A reply shaped as a fenced Mermaid block gives back the code inside. */
  lemma FencedBlock(c: string)
    requires forall i | 0 <= i < |c| :: c[i] != '`'
    ensures StripFences(MermaidFence + c + Fence) == c
  {
    OpeningFence(c, Fence);
    ClosedByFence(c);
  }

  /** The flow returns the code of a fenced block, trimmed. */
  lemma FencedBlockCleans(c: string)
    requires forall i | 0 <= i < |c| :: c[i] != '`'
    ensures CleanMermaid(MermaidFence + c + Fence) == Trim(c)
  {
    FencedBlock(c);
  }

  /** A backtick kept by the scan is never followed by two more in the
      output: three in a row would have formed a fence at that backtick. */
  lemma AfterKeptBacktick(s: string)
    requires s != [] && s[0] == '`' && !StartsWith(s, Fence)
    ensures !StartsWith(StripFences(s[1..]), "``")
  {
    var t := s[1..];
    if t != [] {
      if t[0] != '`' {
        KeptHead(t);
        assert StripFences(t)[0] == t[0];
      } else {
        assert |t| == 1 || t[1] != '`';
        assert !StartsWith(t, MermaidFence) && !StartsWith(t, Fence);
        assert StripFences(t) == [t[0]] + StripFences(t[1..]);
        if |t| >= 2 {
          KeptHead(t[1..]);
          assert StripFences(t)[1] == t[1];
        }
      }
    }
  }

  /** The scan leaves no fence behind. */
  lemma {:induction false} StripRemovesFences(s: string)
    ensures !Contains(StripFences(s), Fence)
    decreases |s|
  {
    if s != [] {
      if StartsWith(s, MermaidFence) {
        StripRemovesFences(s[|MermaidFence|..]);
      } else if StartsWith(s, Fence) {
        StripRemovesFences(s[|Fence|..]);
      } else {
        var rest := StripFences(s[1..]);
        StripRemovesFences(s[1..]);
        var r := [s[0]] + rest;
        assert r[1..] == rest;
        if s[0] == '`' && |rest| >= 2 {
          AfterKeptBacktick(s);
          assert r[1..3] == rest[..2];
        }
        assert !StartsWith(r, Fence);
      }
    }
  }

  /** An occurrence inside a slice is an occurrence in the whole. */
  lemma {:induction false} ContainsInSlice(s: string, k: string, i: nat, j: nat)
    requires i <= j <= |s| && Contains(s[i..j], k)
    ensures Contains(s, k)
    decreases j - i
  {
    var t := s[i..j];
    if StartsWith(t, k) {
      assert s[i..i + |k|] == t[..|k|];
      ContainsAt(s, k, i);
    } else {
      assert t[1..] == s[i + 1..j];
      ContainsInSlice(s, k, i + 1, j);
    }
  }

  /** The cleaned code contains no fence. */
  lemma CleanHasNoFence(code: string)
    ensures !Contains(CleanMermaid(code), Fence)
  {
    var s := StripFences(code);
    StripRemovesFences(code);
    NoFenceInSlice(s, Trim(s), |s| - |TrimStart(s)|);
  }

  lemma NoFenceInSlice(s: string, r: string, i: nat)
    requires IsTrimmedSlice(s, r, i) && !Contains(s, Fence)
    ensures !Contains(r, Fence)
  {
    if Contains(r, Fence) {
      ContainsInSlice(s, Fence, i, i + |r|);
    }
  }
}
