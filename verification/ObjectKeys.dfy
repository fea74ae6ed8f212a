/**
 * The names under which checkpoint objects and commit markers are stored, and the way a listing of
 * a run's keys is turned back into step numbers.
 */
module ObjectKeys {
  import opened Bags
  import opened CheckpointManifest

  const PREFIX := "checkpoints/"
  const SUFFIX := ".complete"

  function Digit(d: nat): char
    requires d < 10
  {
    '0' + d as char
  }

  function Decimal(n: nat): (s: string)
    ensures |s| > 0
  {
    if n < 10 then [Digit(n)] else Decimal(n / 10) + [Digit(n % 10)]
  }

  function Zeros(n: nat): (s: string)
    ensures |s| == n
  {
    if n == 0 then "" else "0" + Zeros(n - 1)
  }

  /** The step as `%08d` prints it. */
  function Padded(n: nat): (s: string)
    ensures |s| >= 8
  {
    var digits := Decimal(n);
    Zeros(if |digits| < 8 then 8 - |digits| else 0) + digits
  }

  function RunPrefix(run: string): string { PREFIX + run + "/" }
  function StepPrefix(run: string): string { RunPrefix(run) + "step_" }

  function ObjectKey(run: string, step: nat, path: string): string {
    StepPrefix(run) + Padded(step) + "/" + path
  }

  function MarkerKey(run: string, step: nat): string {
    StepPrefix(run) + Padded(step) + SUFFIX
  }

  /** Base-ten 64-bit parsing of an unsigned number. */
  function ParseUint(s: string): (value: Option<u64>) {
    match Digits(s)
    case Some(n) => if n <= MAX_U64 then Some(n) else None
    case None => None
  }

  predicate HasPrefix(s: string, prefix: string) {
    |prefix| <= |s| && s[..|prefix|] == prefix
  }

  predicate HasSuffix(s: string, suffix: string) {
    |suffix| <= |s| && s[|s| - |suffix|..] == suffix
  }

  /** The step that a listed key stands for: cut the prefix, cut the suffix, parse the rest. */
  function ListedStep(run: string, key: string): (step: Option<u64>) {
    if !HasPrefix(key, StepPrefix(run)) then None
    else
      var name := key[|StepPrefix(run)|..];
      if !HasSuffix(name, SUFFIX) then None
      else ParseUint(name[..|name| - |SUFFIX|])
  }

  // ---- Decimal printing and parsing ----

  predicate AllDigits(s: string) {
    forall i :: 0 <= i < |s| ==> '0' <= s[i] <= '9'
  }

  lemma {:induction false} DecimalDigits(n: nat)
    ensures AllDigits(Decimal(n)) && Digits(Decimal(n)) == Some(n)
  {
    if n >= 10 {
      DecimalDigits(n / 10);
      var s := Decimal(n);
      assert s[..|s| - 1] == Decimal(n / 10);
    }
  }

  lemma {:induction false} LeadingZeros(z: nat, s: string)
    requires |s| > 0 && AllDigits(s)
    ensures AllDigits(Zeros(z) + s) && Digits(Zeros(z) + s) == Digits(s)
    decreases z, |s|
  {
    if z == 0 {
      assert Zeros(z) + s == s;
    } else {
      LeadingZeros(z - 1, s);
      var t := Zeros(z - 1) + s;
      assert Zeros(z) + s == "0" + t;
      LeadingZero(t);
    }
  }

  lemma {:induction false} LeadingZero(t: string)
    requires |t| > 0 && AllDigits(t)
    ensures AllDigits("0" + t) && Digits("0" + t) == Digits(t)
  {
    var s := "0" + t;
    assert s[..|s| - 1] == "0" + t[..|t| - 1];
    if |t| > 1 {
      LeadingZero(t[..|t| - 1]);
    } else {
      assert t[..0] == "";
      assert s[..1] == "0";
    }
  }

  /** Parsing the printed step gives the step back, for every 64-bit step. */
  lemma ParsePadded(n: u64)
    ensures AllDigits(Padded(n)) && ParseUint(Padded(n)) == Some(n)
  {
    DecimalDigits(n);
    var digits := Decimal(n);
    LeadingZeros(if |digits| < 8 then 8 - |digits| else 0, digits);
  }

  /** No more zeros than it takes to be eight characters wide. */
  lemma PaddedWidth(n: nat)
    ensures |Padded(n)| == 8 || Padded(n) == Decimal(n)
  {
  }

  /** The names other programs see. */
  lemma KeysAsStored(run: string, step: nat, path: string)
    ensures ObjectKey(run, step, path) == "checkpoints/" + run + "/step_" + Padded(step) + "/" + path
    ensures MarkerKey(run, step) == "checkpoints/" + run + "/step_" + Padded(step) + ".complete"
  {
    var stem := "checkpoints/" + run + "/step_";
    assert StepPrefix(run) == stem;
  }

  /** Ranks are read off keys as they are printed, with or without a sign. */
  lemma AtoiReads(n: nat)
    requires n < 0x8000_0000_0000_0000
    ensures Atoi(Decimal(n)) == Some(n as int) && Atoi("+" + Decimal(n)) == Some(n as int)
    ensures Atoi("-" + Decimal(n)) == Some(-(n as int)) && AtoiValue(Decimal(n)) == n
  {
    DecimalDigits(n);
    var s := Decimal(n);
    assert '0' <= s[0] <= '9';
    assert ("+" + s)[1..] == s && ("-" + s)[1..] == s;
  }

  /** The name of a type ends in its size in bits, except for bool, which takes a byte. */
  lemma DtypeSizeInName(dtype: string)
    requires DtypeSize(dtype).Some? && dtype != "bool"
    ensures HasSuffix(dtype, Decimal(8 * DtypeSize(dtype).value))
    ensures DtypeSize("bool") == Some(1)
  {
    assert Decimal(8) == "8" && Decimal(16) == "16" && Decimal(32) == "32" && Decimal(64) == "64";
  }

  lemma PaddedInjective(m: u64, n: u64)
    requires Padded(m) == Padded(n)
    ensures m == n
  {
    ParsePadded(m);
    ParsePadded(n);
  }

  // ---- Keys ----

  /** Two strings cut at their first slash. */
  lemma CutAtSlash(a: string, b: string, c: string, d: string)
    requires '/' !in a && '/' !in c
    requires a + "/" + b == c + "/" + d
    ensures a == c && b == d
  {
    var s, t := a + "/" + b, c + "/" + d;
    assert s[|a|] == '/' && t[|c|] == '/';
    assert forall i :: 0 <= i < |c| ==> t[i] == c[i];
    assert forall i :: 0 <= i < |a| ==> s[i] == a[i];
    assert a == s[..|a|] && c == t[..|c|];
    assert b == s[|a| + 1..] && d == t[|c| + 1..];
  }

  /** What follows the fixed prefix, cut into the run and the rest. */
  lemma SameRun(run: string, x: string, other: string, y: string)
    requires '/' !in run && '/' !in other
    requires StepPrefix(run) + x == StepPrefix(other) + y
    ensures run == other && x == y
  {
    var s, t := StepPrefix(run) + x, StepPrefix(other) + y;
    assert s[|PREFIX|..] == run + "/" + ("step_" + x);
    assert t[|PREFIX|..] == other + "/" + ("step_" + y);
    CutAtSlash(run, "step_" + x, other, "step_" + y);
    assert x == ("step_" + x)[5..] && y == ("step_" + y)[5..];
  }

  /** Object keys are injective in the run, the step and the path. */
  lemma ObjectKeyInjective(run: string, step: u64, path: string, run': string, step': u64, path': string)
    requires '/' !in run && '/' !in run'
    requires ObjectKey(run, step, path) == ObjectKey(run', step', path')
    ensures run == run' && step == step' && path == path'
  {
    var x, y := Padded(step) + "/" + path, Padded(step') + "/" + path';
    assert ObjectKey(run, step, path) == StepPrefix(run) + x;
    assert ObjectKey(run', step', path') == StepPrefix(run') + y;
    SameRun(run, x, run', y);
    ParsePadded(step);
    ParsePadded(step');
    CutAtSlash(Padded(step), path, Padded(step'), path');
    PaddedInjective(step, step');
  }

  /** An object key is never a marker key, whatever the path. */
  lemma ObjectIsNoMarker(run: string, step: u64, path: string, run': string, step': u64)
    requires '/' !in run && '/' !in run'
    ensures ObjectKey(run, step, path) != MarkerKey(run', step')
  {
    var x, y := Padded(step) + "/" + path, Padded(step') + SUFFIX;
    assert ObjectKey(run, step, path) == StepPrefix(run) + x;
    assert MarkerKey(run', step') == StepPrefix(run') + y;
    assert x[|Padded(step)|] == '/';
    ParsePadded(step');
    assert '/' !in y;
    if StepPrefix(run) + x == StepPrefix(run') + y {
      SameRun(run, x, run', y);
    }
  }

  lemma MarkerKeyInjective(run: string, step: u64, run': string, step': u64)
    requires '/' !in run && '/' !in run'
    requires MarkerKey(run, step) == MarkerKey(run', step')
    ensures run == run' && step == step'
  {
    var x, y := Padded(step) + SUFFIX, Padded(step') + SUFFIX;
    assert MarkerKey(run, step) == StepPrefix(run) + x;
    assert MarkerKey(run', step') == StepPrefix(run') + y;
    SameRun(run, x, run', y);
    assert x[..|x| - |SUFFIX|] == Padded(step);
    assert y[..|y| - |SUFFIX|] == Padded(step');
    PaddedInjective(step, step');
  }

  /** A listed marker key of the run gives back its step. */
  lemma ParseMarker(run: string, step: u64)
    ensures ListedStep(run, MarkerKey(run, step)) == Some(step)
  {
    var key := MarkerKey(run, step);
    var x := Padded(step) + SUFFIX;
    assert key == StepPrefix(run) + x;
    assert key[..|StepPrefix(run)|] == StepPrefix(run);
    assert key[|StepPrefix(run)|..] == x;
    assert x[|x| - |SUFFIX|..] == SUFFIX;
    assert x[..|x| - |SUFFIX|] == Padded(step);
    ParsePadded(step);
  }

  /** No object key of any run, however its path ends, is read as a marker. */
  lemma ObjectsAreNotListed(run: string, run': string, step: u64, path: string)
    requires '/' !in run && '/' !in run'
    ensures ListedStep(run, ObjectKey(run', step, path)) == None
  {
    var key := ObjectKey(run', step, path);
    var x := Padded(step) + "/" + path;
    assert key == StepPrefix(run') + x;
    if HasPrefix(key, StepPrefix(run)) {
      var name := key[|StepPrefix(run)|..];
      assert key == StepPrefix(run) + name;
      SameRun(run, name, run', x);
      if HasSuffix(name, SUFFIX) {
        SlashSurvivesCut(Padded(step), path, name);
      }
    }
  }

  /** The slash before the path stands outside the suffix, so the cut name is no number. */
  lemma SlashSurvivesCut(digits: string, path: string, name: string)
    requires name == digits + "/" + path && HasSuffix(name, SUFFIX)
    ensures Digits(name[..|name| - |SUFFIX|]) == None
  {
    var cut := name[..|name| - |SUFFIX|];
    assert name == cut + SUFFIX && '/' !in SUFFIX;
    assert name[|digits|] == '/';
    NotDigits(cut, |digits|);
  }

  lemma {:induction false} NotDigits(s: string, i: nat)
    requires i < |s| && s[i] == '/'
    ensures Digits(s) == None
  {
    if i < |s| - 1 {
      NotDigits(s[..|s| - 1], i);
    }
  }

  lemma MarkersAreListed(run: string, key: string, step: u64, r: string, s: u64)
    requires '/' !in run && '/' !in r && key == MarkerKey(r, s)
    requires ListedStep(run, key) == Some(step)
    ensures r == run && s == step
  {
    var x := Padded(s) + SUFFIX;
    var name := key[|StepPrefix(run)|..];
    assert key == StepPrefix(r) + x;
    assert key == StepPrefix(run) + name;
    SameRun(run, name, r, x);
    ParseMarker(r, s);
  }

  // ---- Keys as values ----

  /** What a key stands for. */
  datatype Key = ObjectAt(run: string, step: u64, path: string) | MarkerAt(run: string, step: u64)

  function ManifestAt(run: string, step: u64): Key { ObjectAt(run, step, "manifest.json") }

  function Name(k: Key): string {
    match k
    case ObjectAt(run, step, path) => ObjectKey(run, step, path)
    case MarkerAt(run, step) => MarkerKey(run, step)
  }

  /** Distinct keys have distinct names, so a store indexed by names is one indexed by keys. */
  lemma NameInjective(k: Key, l: Key)
    requires '/' !in k.run && '/' !in l.run && Name(k) == Name(l)
    ensures k == l
  {
    match (k, l)
    case (ObjectAt(r, s, p), ObjectAt(r', s', p')) => ObjectKeyInjective(r, s, p, r', s', p');
    case (MarkerAt(r, s), MarkerAt(r', s')) => MarkerKeyInjective(r, s, r', s');
    case (ObjectAt(r, s, p), MarkerAt(r', s')) => ObjectIsNoMarker(r, s, p, r', s');
    case (MarkerAt(r, s), ObjectAt(r', s', p)) => ObjectIsNoMarker(r', s', p, r, s);
  }

  /** Of all objects and markers in the store, exactly the run's markers are listed, each as its step. */
  lemma ListingIsExact(run: string, k: Key, step: u64)
    requires '/' !in run && '/' !in k.run
    ensures ListedStep(run, Name(k)) == Some(step) <==> k == MarkerAt(run, step)
  {
    match k
    case ObjectAt(r, s, p) => ObjectsAreNotListed(run, r, s, p);
    case MarkerAt(r, s) =>
      if k == MarkerAt(run, step) {
        ParseMarker(run, step);
      } else if ListedStep(run, Name(k)) == Some(step) {
        MarkersAreListed(run, Name(k), step, r, s);
      }
  }
}
