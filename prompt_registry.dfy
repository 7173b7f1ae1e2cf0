/**
 * The prompt registry of backend/prompts/__init__.py: the two-entry prompt
 * dictionary behind `get_prompt`, and `remove_lang_tags`, which strips
 * Markdown code fences from a model reply before it is parsed as JSON.
 */
module PromptRegistry {
  import opened Text

  /** The builders the registry can dispatch to. */
  datatype PromptBuilder = ChompsPrompt | PedieatPrompt

  /** `PromptDict[prompt_type]`: a lookup that raises KeyError for unknown types. */
  function GetPrompt(promptType: string): (r: Result<PromptBuilder, string>)
    ensures r.Ok? <==> promptType == "chomps" || promptType == "pedieat"
    ensures r.Ok? && r.value == ChompsPrompt ==> promptType == "chomps"
    ensures r.Ok? && r.value == PedieatPrompt ==> promptType == "pedieat"
    ensures r.Err? ==> r.error == "KeyError: " + promptType
  {
    if promptType == "chomps" then Ok(ChompsPrompt)
    else if promptType == "pedieat" then Ok(PedieatPrompt)
    else Err("KeyError: " + promptType)
  }

  const Fence: string := "```"
  const JsonFence: string := "```json"

  /** `data.replace("```json", "").replace("```", "")` */
  function RemoveLangTags(data: string): (r: string)
    ensures !Contains(r, Fence)
  {
    var withoutJson := Replace(data, JsonFence, "");
    NoFenceAfterRemoval(withoutJson);
    Replace(withoutJson, Fence, "")
  }

  /** The number of backticks at the front of `s`. */
  function LeadingTicks(s: string): nat
    decreases |s|
  {
    if |s| > 0 && s[0] == '`' then 1 + LeadingTicks(s[1..]) else 0
  }

  lemma LeadingTicksFence(s: string)
    ensures LeadingTicks(s) >= 3 <==> StartsWith(s, Fence)
  {
    if |s| >= 3 && s[0] == '`' && s[1] == '`' && s[2] == '`' {
      assert s[..3] == Fence;
    }
    if |s| >= 1 && s[0] == '`' {
      if |s| >= 2 && s[1] == '`' {
        assert s[1..][1..] == s[2..];
        if |s| >= 3 {
          assert s[2..][1..] == s[3..];
        }
        assert LeadingTicks(s) == 2 + LeadingTicks(s[2..]);
      } else {
        assert LeadingTicks(s) == 1;
      }
    }
  }

  /**
   * Removing fences reduces the run of backticks at the front of the text to
   * its length modulo three.
   */
  lemma {:induction false} RemovalLeadingTicks(s: string)
    ensures LeadingTicks(Replace(s, Fence, "")) == LeadingTicks(s) % 3
    decreases |s|, 1
  {
    if StartsWith(s, Fence) {
      RemovalAtFence(s);
    } else if |s| > 0 {
      RemovalAtChar(s);
    }
  }

  lemma {:induction false} RemovalAtFence(s: string)
    requires StartsWith(s, Fence)
    ensures LeadingTicks(Replace(s, Fence, "")) == LeadingTicks(s) % 3
    decreases |s|, 0
  {
    RemovalLeadingTicks(s[3..]);
    assert Replace(s, Fence, "") == Replace(s[3..], Fence, "");
    assert s[..3] == Fence;
    assert s[0] == '`' && s[1] == '`' && s[2] == '`';
    assert LeadingTicks(s) == 1 + LeadingTicks(s[1..]);
    assert LeadingTicks(s[1..]) == 1 + LeadingTicks(s[1..][1..]);
    assert LeadingTicks(s[1..][1..]) == 1 + LeadingTicks(s[1..][1..][1..]);
    assert s[1..][1..][1..] == s[3..];
  }

  lemma {:induction false} RemovalAtChar(s: string)
    requires !StartsWith(s, Fence) && |s| > 0
    ensures LeadingTicks(Replace(s, Fence, "")) == LeadingTicks(s) % 3
    decreases |s|, 0
  {
    LeadingTicksFence(s);
    var rest := Replace(s[1..], Fence, "");
    assert Replace(s, Fence, "") == [s[0]] + rest;
    assert ([s[0]] + rest)[1..] == rest;
    if s[0] == '`' {
      RemovalLeadingTicks(s[1..]);
    }
  }

  /** After all fences are removed, no fence is left, even one formed by the removal. */
  lemma {:induction false} NoFenceAfterRemoval(s: string)
    ensures !Contains(Replace(s, Fence, ""), Fence)
    decreases |s|
  {
    var r := Replace(s, Fence, "");
    RemovalLeadingTicks(s);
    LeadingTicksFence(r);
    if StartsWith(s, Fence) {
      NoFenceAfterRemoval(s[3..]);
      assert r == Replace(s[3..], Fence, "");
    } else if |s| > 0 {
      NoFenceAfterRemoval(s[1..]);
      assert r[1..] == Replace(s[1..], Fence, "");
    }
  }

  /** Text without any fence passes through unchanged. */
  lemma RemoveLangTagsUnchanged(data: string)
    requires !Contains(data, Fence)
    ensures RemoveLangTags(data) == data
  {
    assert JsonFence == Fence + "json";
    if Contains(data, JsonFence) {
      ContainsPrefix(data, Fence, "json");
    }
    ReplaceAbsent(data, JsonFence, "");
    ReplaceAbsent(data, Fence, "");
  }

  /** Removing the tags twice is the same as removing them once. */
  lemma RemoveLangTagsIdempotent(data: string)
    ensures RemoveLangTags(RemoveLangTags(data)) == RemoveLangTags(data)
  {
    RemoveLangTagsUnchanged(RemoveLangTags(data));
  }
}
