/** The string keys under which media and rendered documents are stored, and why they never collide. */
module StorageKeys {
  import opened Domain

  datatype Format = Pdf | Docx

  function Decimal(n: nat): (s: string)
    ensures s != []
  {
    if n < 10 then [DigitChar(n)] else Decimal(n / 10) + [DigitChar(n % 10)]
  }

  function DigitChar(d: nat): char
    requires d < 10
  {
    '0' + d as char
  }

  /** The value of an intent; only the two document intents name a file. */
  function IntentName(intent: Intent): string {
    match intent
    case Quote => "quote"
    case ExecutionPlan => "execution_plan"
    case NoIntent => "none"
  }

  function Extension(format: Format): string {
    match format
    case Pdf => ".pdf"
    case Docx => ".docx"
  }

  function Filename(id: string, revisionNo: nat, intent: Intent, format: Format): string {
    IntentName(intent) + "-" + id + "-r" + Decimal(revisionNo) + Extension(format)
  }

  function ArtifactKey(id: string, revisionNo: nat, intent: Intent, format: Format): string {
    id + ("/" + (("r" + Decimal(revisionNo)) + ("/" + Filename(id, revisionNo, intent, format))))
  }

  function InboundKey(messageId: string): string {
    "inbound" + ("/" + messageId)
  }

  /** The stable reference the in-memory store returns for a key. */
  function Reference(key: string): string {
    "memory://" + key
  }

  /** A request id that cannot be mistaken for another part of a key. */
  predicate KeySafe(id: string) {
    '/' !in id && id != "inbound"
  }

  predicate IsHex(id: string) {
    forall c | c in id :: '0' <= c <= '9' || 'a' <= c <= 'f'
  }

  /** The ids `uuid4().hex` yields are key-safe. */
  lemma HexKeySafe(id: string)
    requires IsHex(id)
    ensures KeySafe(id)
  {
    var word := "inbound";
    assert word[1] == 'n' && word[1] in word;
  }

  lemma {:induction false} DecimalDigits(n: nat)
    ensures forall c | c in Decimal(n) :: '0' <= c <= '9'
  {
    if n >= 10 {
      DecimalDigits(n / 10);
    }
  }

  /** The number a string of digits stands for. */
  function Number(s: string): int {
    if s == "" then 0 else 10 * Number(s[..|s| - 1]) + (s[|s| - 1] as int - '0' as int)
  }

  /** `Decimal` is the decimal numeral: it stands for its number and starts with no idle zero. */
  lemma {:induction false} DecimalMeans(n: nat)
    ensures Number(Decimal(n)) == n && (Decimal(n)[0] == '0' ==> n == 0)
  {
    if n < 10 {
      assert Decimal(n)[..0] == "";
    } else {
      DecimalMeans(n / 10);
      var s := Decimal(n);
      assert s[..|s| - 1] == Decimal(n / 10);
    }
  }

  /** How the keys are spelled. */
  lemma KeysSpelled(id: string, n: nat, intent: Intent, format: Format)
    ensures ArtifactKey(id, n, intent, format) == id + "/r" + Decimal(n) + "/" + Filename(id, n, intent, format)
    ensures InboundKey(id) == "inbound/" + id
  {
    hide Decimal, Filename;
    SlashR(id, Decimal(n), Filename(id, n, intent, format));
  }

  lemma SlashR(a: string, d: string, f: string)
    ensures a + ("/" + (("r" + d) + ("/" + f))) == a + "/r" + d + "/" + f
  {
    assert "/r" == "/" + "r";
  }

  lemma FilesSpelled(id: string, n: nat)
    ensures Filename(id, n, Quote, Pdf) == "quote-" + id + "-r" + Decimal(n) + ".pdf"
    ensures Filename(id, n, Quote, Docx) == "quote-" + id + "-r" + Decimal(n) + ".docx"
    ensures Filename(id, n, ExecutionPlan, Pdf) == "execution_plan-" + id + "-r" + Decimal(n) + ".pdf"
    ensures Filename(id, n, ExecutionPlan, Docx) == "execution_plan-" + id + "-r" + Decimal(n) + ".docx"
  {
    hide Decimal;
    assert "quote" + "-" == "quote-" && "execution_plan" + "-" == "execution_plan-";
  }

  lemma {:induction false} DecimalInjective(m: nat, n: nat)
    requires Decimal(m) == Decimal(n)
    ensures m == n
  {
    var s, t := Decimal(m), Decimal(n);
    assert (m < 10 <==> |s| == 1) && (n < 10 <==> |t| == 1);
    assert s[|s| - 1] == t[|t| - 1];
    assert m % 10 == n % 10;
    if m >= 10 && n >= 10 {
      assert s[..|s| - 1] == Decimal(m / 10) && t[..|t| - 1] == Decimal(n / 10);
      DecimalInjective(m / 10, n / 10);
    }
  }

  /** Without slashes before it, the first slash splits a string in one way only. */
  lemma SplitAtSlash(a: string, b: string, x: string, y: string)
    requires a + ("/" + x) == b + ("/" + y) && '/' !in a && '/' !in b
    ensures a == b && x == y
  {
    var s, t := a + ("/" + x), b + ("/" + y);
    assert s[|a|] == '/' && t[|b|] == '/';
    assert forall i | 0 <= i < |a| :: s[i] == a[i];
    assert forall i | 0 <= i < |b| :: t[i] == b[i];
    assert |a| == |b|;
    assert s[..|a|] == a && t[..|b|] == b && s[|a| + 1..] == x && t[|b| + 1..] == y;
  }

  /** An artifact key determines the request, the revision and the format. */
  lemma ArtifactKeyInjective(id1: string, n1: nat, i1: Intent, f1: Format, id2: string, n2: nat, i2: Intent, f2: Format)
    requires KeySafe(id1) && KeySafe(id2)
    requires ArtifactKey(id1, n1, i1, f1) == ArtifactKey(id2, n2, i2, f2)
    ensures id1 == id2 && n1 == n2 && f1 == f2
  {
    var r1, r2 := "r" + Decimal(n1), "r" + Decimal(n2);
    var file1, file2 := Filename(id1, n1, i1, f1), Filename(id2, n2, i2, f2);
    DecimalDigits(n1);
    DecimalDigits(n2);
    SplitAtSlash(id1, id2, r1 + ("/" + file1), r2 + ("/" + file2));
    SplitAtSlash(r1, r2, file1, file2);
    assert r1[1..] == Decimal(n1) && r2[1..] == Decimal(n2);
    DecimalInjective(n1, n2);
    assert file1[|file1| - 1] == (if f1.Pdf? then 'f' else 'x');
    assert file2[|file2| - 1] == (if f2.Pdf? then 'f' else 'x');
  }

  lemma InboundKeyApart(messageId: string, id: string, n: nat, intent: Intent, format: Format)
    requires KeySafe(id)
    ensures InboundKey(messageId) != ArtifactKey(id, n, intent, format)
  {
    if InboundKey(messageId) == ArtifactKey(id, n, intent, format) {
      SplitAtSlash("inbound", id, messageId, ("r" + Decimal(n)) + ("/" + Filename(id, n, intent, format)));
    }
  }

  lemma InboundKeyInjective(m1: string, m2: string)
    requires InboundKey(m1) == InboundKey(m2)
    ensures m1 == m2
  {
    SplitAtSlash("inbound", "inbound", m1, m2);
  }

  /** Why ids must be key-safe: the id `inbound` makes a document overwrite a received file. */
  lemma UnsafeIdCollides()
    ensures ArtifactKey("inbound", 1, Quote, Pdf) == InboundKey("r1/quote-inbound-r1.pdf")
  {
    assert Decimal(1) == "1";
  }
}
