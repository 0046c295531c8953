/** Pulling a `{...}` object out of free-form text: from the first opening to the last closing brace. */
module JsonIO {
  import opened Wrappers

  datatype ExtractError = NoObject

  /** `text.find(c)`, with `|text|` for absence. */
  function Find(text: string, c: char): (i: nat)
    ensures i <= |text| && (i < |text| ==> text[i] == c)
    ensures forall j | 0 <= j < i :: text[j] != c
  {
    if text == [] || text[0] == c then 0 else 1 + Find(text[1..], c)
  }

  /** One past `text.rfind(c)`, with 0 for absence. */
  function FindLast(text: string, c: char): (end: nat)
    ensures end <= |text| && (end > 0 ==> text[end - 1] == c)
    ensures forall j | end <= j < |text| :: text[j] != c
  {
    if text == [] || text[|text| - 1] == c then |text| else FindLast(text[..|text| - 1], c)
  }

  function ExtractJsonObject(text: string): Result<string, ExtractError> {
    var start, end := Find(text, '{'), FindLast(text, '}');
    if start == |text| || end == 0 || end - 1 < start then Failure(NoObject)
    else Success(text[start..end])
  }

  /** Extraction fails exactly when no opening brace comes before a closing one. */
  lemma ExtractFailsIff(text: string)
    ensures ExtractJsonObject(text).Success? <==> exists i, j :: 0 <= i < j < |text| && text[i] == '{' && text[j] == '}'
  {
    var start, end := Find(text, '{'), FindLast(text, '}');
    if ExtractJsonObject(text).Success? {
      assert 0 <= start < end - 1 < |text|;
    }
  }

  /** It undoes prose wrapping, whatever braces the object itself contains. */
  lemma ExtractUnwraps(prefix: string, body: string, suffix: string)
    requires '{' !in prefix && '}' !in suffix
    requires |body| >= 2 && body[0] == '{' && body[|body| - 1] == '}'
    ensures ExtractJsonObject(prefix + body + suffix) == Success(body)
  {
    var text := prefix + body + suffix;
    var last := |prefix| + |body|;
    forall j | 0 <= j < |prefix| ensures text[j] != '{' {
      assert text[j] == prefix[j] && prefix[j] in prefix;
    }
    forall j | last <= j < |text| ensures text[j] != '}' {
      assert text[j] == suffix[j - last] && suffix[j - last] in suffix;
    }
    assert text[|prefix|] == '{' && text[last - 1] == '}';
    FindIs(text, '{', |prefix|);
    FindLastIs(text, '}', last);
    assert text[|prefix|..last] == body;
  }

  lemma FindIs(text: string, c: char, k: nat)
    requires k < |text| && text[k] == c && forall j | 0 <= j < k :: text[j] != c
    ensures Find(text, c) == k
  {
  }

  lemma FindLastIs(text: string, c: char, end: nat)
    requires 0 < end <= |text| && text[end - 1] == c && forall j | end <= j < |text| :: text[j] != c
    ensures FindLast(text, c) == end
  {
  }

  /** What was extracted is extracted from itself. */
  lemma ExtractIdempotent(text: string)
    requires ExtractJsonObject(text).Success?
    ensures ExtractJsonObject(ExtractJsonObject(text).value) == ExtractJsonObject(text)
  {
    var body := ExtractJsonObject(text).value;
    ExtractUnwraps([], body, []);
    assert [] + body + [] == body;
  }
}
