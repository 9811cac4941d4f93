/** `CodePreview`: the language tag used for highlighting and the heuristic
    that decides whether the HTML live preview failed to render. */
module CodePreview {
  import opened Text

  /** What `handleIframeLoad` sees of the preview frame after its grace period: its
      document could not be reached, reading it threw, or it was read and its
      `body` and `head` have these many child elements. The frame is
      sandboxed with scripts only, so under the HTML standard its document
      has an opaque origin and is normally `Unreachable`; `Inspected` is the
      branch the source writes for a readable document. */
  datatype Observation = Unreachable | Threw | Inspected(bodyChildren: nat, headChildren: nat)

  /** `handleIframeLoad`: the new value of the "preview failed" flag. An
      unreadable frame flags non-blank code as failed and otherwise leaves
      the flag alone; a readable one flags exactly non-blank code whose
      rendering has no elements at all. */
  function PreviewFailed(code: string, obs: Observation, flag: bool): (r: bool)
    ensures !obs.Inspected? && !IsBlank(code) ==> r
    ensures !obs.Inspected? && IsBlank(code) ==> r == flag
    ensures obs.Inspected? ==> (r <==> !IsBlank(code) && obs.bodyChildren == 0 && obs.headChildren == 0)
  {
    match obs
    case Unreachable => if !IsBlank(code) then true else flag
    case Threw => if !IsBlank(code) then true else flag
    case Inspected(body, head) => !IsBlank(code) && body == 0 && head == 0
  }

  /** The flag is cleared whenever the code changes, so code made only of
      whitespace is never reported as a failed preview. */
  lemma WhitespaceNeverFails(code: string, obs: Observation)
    requires forall i :: 0 <= i < |code| ==> IsJsWhitespace(code[i])
    ensures !PreviewFailed(code, obs, false)
  {
  }

  /** The preview test is tolerant: any rendered element counts as success, broken
      or not, and an unreadable frame counts as failure for any code with a
      visible character. */
  lemma PreviewDecisionByContent(code: string, obs: Observation, flag: bool, i: nat)
    requires i < |code| && !IsJsWhitespace(code[i])
    ensures obs.Inspected? && (obs.bodyChildren > 0 || obs.headChildren > 0) ==> !PreviewFailed(code, obs, flag)
    ensures !obs.Inspected? ==> PreviewFailed(code, obs, flag)
    ensures obs == Inspected(0, 0) ==> PreviewFailed(code, obs, flag)
  {
  }

  /** `getHighlightLanguage`: the highlighter's name for a language label,
      compared case-insensitively. */
  function HighlightLanguage(lang: string): (r: string)
    ensures forall i :: 0 <= i < |r| ==> !('A' <= r[i] <= 'Z')
    ensures ToLower(lang) == "react" ==> r == "jsx"
    ensures ToLower(lang) == "vue" ==> r == "vue"
    ensures ToLower(lang) == "html" ==> r == "xml"
    ensures ToLower(lang) !in {"react", "vue", "html"} ==> r == ToLower(lang)
  {
    var l := ToLower(lang);
    if l == "react" then "jsx"
    else if l == "vue" then "vue"
    else if l == "html" then "xml"
    else l
  }

  /** The three labels the language picker offers. */
  lemma PickerLanguages()
    ensures HighlightLanguage("HTML") == "xml"
    ensures HighlightLanguage("React") == "jsx"
    ensures HighlightLanguage("Vue") == "vue"
  {
    assert ToLower("HTML") == "html";
    assert ToLower("React") == "react";
    assert ToLower("Vue") == "vue";
  }

  /** Case does not matter, and mapping a result again changes nothing. */
  lemma HighlightLanguageStable(lang: string)
    ensures HighlightLanguage(ToLower(lang)) == HighlightLanguage(lang)
    ensures HighlightLanguage(HighlightLanguage(lang)) == HighlightLanguage(lang)
  {
    ToLowerIdempotent(lang);
    var r := HighlightLanguage(lang);
    ToLowerIdempotent(r);
    assert ToLower("jsx") == "jsx";
    assert ToLower("xml") == "xml";
    assert ToLower("vue") == "vue";
    if r !in {"jsx", "xml", "vue"} {
      assert r == ToLower(lang);
    }
  }
}
