/**
 * How `cli_run.py` reads the argument vectors that the request front, the
 * serverless handler and the S3 poller build for it: a flag's value is the
 * word after its first occurrence. The parser keeps the last occurrence
 * instead; the two agree because every builder passes each flag at most
 * once. This is the reference reader the command builders are checked
 * against.
 */
module Argv {
  import opened Wrappers

  /** The option words of `cli_run.py`'s argument parser. */
  const Flags: set<string> := {"--video_path", "--job_id", "--hls_output", "--hls_segment",
                               "--output_s3_prefix", "--source_lang", "--target_lang", "--dubbing"}

  /** Index of the first occurrence of `flag`, or `|argv|`. */
  function FlagIndex(argv: seq<string>, flag: string): (r: nat)
    ensures r <= |argv|
    ensures forall j :: 0 <= j < r ==> argv[j] != flag
    ensures r < |argv| ==> argv[r] == flag
  {
    if argv == [] || argv[0] == flag then 0 else 1 + FlagIndex(argv[1..], flag)
  }

  /** The word following the first occurrence of `flag`, if any. */
  function ArgValue(argv: seq<string>, flag: string): Option<string> {
    var k := FlagIndex(argv, flag);
    if k + 1 < |argv| then Some(argv[k + 1]) else None
  }

  predicate HasFlag(argv: seq<string>, flag: string) {
    flag in argv
  }

  /** A '-' followed by decimal digits only, which the parser takes for a negative number. */
  predicate NegativeNumber(v: string) {
    |v| >= 2 && v[0] == '-' && forall i :: 1 <= i < |v| ==> '0' <= v[i] <= '9'
  }

  /**
   * A value is plain when the parser cannot mistake it for an option word:
   * it does not start with '-', or it is a lone '-' or a negative number.
   * Every other word starting with '-' may be an option or an abbreviation
   * of one.
   */
  predicate Plain(v: string)
    ensures Plain(v) ==> v !in Flags
  {
    assert v in Flags ==> |v| > 2 && v[0] == '-' && v[1] == '-';
    assert v in Flags ==> !NegativeNumber(v);
    v == [] || v[0] != '-' || v == "-" || NegativeNumber(v)
  }

  /** A flag absent from `head` and followed by a value is read as that value. */
  lemma ArgValueAfter(head: seq<string>, flag: string, value: string, tail: seq<string>)
    requires flag !in head
    ensures ArgValue(head + [flag, value] + tail, flag) == Some(value)
  {
    var argv := head + [flag, value] + tail;
    var k := FlagIndex(argv, flag);
    assert argv[|head|] == flag;
    assert forall j :: 0 <= j < |head| ==> argv[j] == head[j];
    assert argv[|head| + 1] == value;
  }

  /** The value of a flag whose first occurrence is at `k`. */
  lemma ArgValueAt(argv: seq<string>, flag: string, k: nat)
    requires k + 1 < |argv| && argv[k] == flag
    requires forall j :: 0 <= j < k ==> argv[j] != flag
    ensures ArgValue(argv, flag) == Some(argv[k + 1])
  {
  }

  /** A flag first met inside the leading words `fixed` is read back from them, whatever follows. */
  lemma ArgValueInFixed(fixed: seq<string>, rest: seq<string>, k: nat)
    requires k + 1 < |fixed| && fixed[k] !in fixed[..k]
    ensures ArgValue(fixed + rest, fixed[k]) == Some(fixed[k + 1])
  {
    var argv := fixed + rest;
    forall j | 0 <= j < k
      ensures argv[j] != fixed[k]
    {
      assert argv[j] == fixed[..k][j];
    }
    ArgValueAt(argv, fixed[k], k);
  }

  /** A flag that does not occur has no value. */
  lemma ArgValueAbsent(argv: seq<string>, flag: string)
    requires flag !in argv
    ensures ArgValue(argv, flag) == None
  {
  }

  /** An optional flag-and-value group, between words without that flag, is read back exactly when present. */
  lemma OptionalArgValue(head: seq<string>, flag: string, present: bool, value: string, tail: seq<string>)
    requires flag !in head && flag !in tail
    ensures ArgValue(head + (if present then [flag, value] else []) + tail, flag) == if present then Some(value) else None
  {
    if present {
      ArgValueAfter(head, flag, value, tail);
    } else {
      assert head + [] + tail == head + tail;
      assert flag !in head + tail;
      ArgValueAbsent(head + tail, flag);
    }
  }

  /**
   * After leading words without the optional flags come a source language,
   * a target language and `--dubbing`, each only when present: each language
   * is read back exactly when present, and `--dubbing` occurs exactly when
   * present.
   */
  lemma OptionsReadBack(fixed: seq<string>, hasSource: bool, source: string, hasTarget: bool, target: string,
                        dubbing: bool)
    requires "--source_lang" !in fixed && "--target_lang" !in fixed && "--dubbing" !in fixed
    requires Plain(source) && Plain(target)
    ensures var cmd := fixed + (if hasSource then ["--source_lang", source] else [])
                             + (if hasTarget then ["--target_lang", target] else [])
                             + (if dubbing then ["--dubbing"] else []);
      && ArgValue(cmd, "--source_lang") == (if hasSource then Some(source) else None)
      && ArgValue(cmd, "--target_lang") == (if hasTarget then Some(target) else None)
      && (HasFlag(cmd, "--dubbing") <==> dubbing)
  {
    var src := if hasSource then ["--source_lang", source] else [];
    var tgt := if hasTarget then ["--target_lang", target] else [];
    var dub: seq<string> := if dubbing then ["--dubbing"] else [];
    assert "--source_lang" in Flags && "--target_lang" in Flags && "--dubbing" in Flags;
    assert "--source_lang" !in tgt + dub && "--target_lang" !in fixed + src && "--target_lang" !in dub;
    var cmd := fixed + src + tgt + dub;
    assert cmd == fixed + src + (tgt + dub);
    OptionalArgValue(fixed, "--source_lang", hasSource, source, tgt + dub);
    OptionalArgValue(fixed + src, "--target_lang", hasTarget, target, dub);
    assert "--dubbing" !in fixed + src + tgt;
  }

  /** Decimal renderings of integers are never option words. */
  lemma DecimalIsPlain(v: string)
    requires forall i :: 1 <= i < |v| ==> '0' <= v[i] <= '9'
    ensures Plain(v)
  {
  }
}
