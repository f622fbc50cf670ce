/** The text edit of a feature document and the checks around it, as loops over its lines. */
module Projection {
  import opened Common
  import opened Text
  import opened Yaml
  import opened YamlPrint
  import opened Documents

  const STATUS := "status"
  const SEQUENCES := "latest_machine_sequence"
  const FEATURE_SCHEMA := "pulsarmlx.feature-loop/1.0.0"

  predicate StartsWith(line: string, prefix: string) {
    prefix <= line
  }

  // ---- the edit, line by line ----

  function StatusLine(status: string): string {
    STATUS + ": " + status + "\n"
  }

  function IntText(n: int): string {
    if n >= 0 then Digits(n) else "-" + Digits(-n)
  }

  function SlugLine(slug: string, sequence: int): string {
    "  " + (slug + ": " + IntText(sequence)) + "\n"
  }

  predicate IsStatus(line: string) {
    StartsWith(line, STATUS + ":")
  }

  /** Whether the sequence region is open after the head of this line has been looked at. */
  predicate Inside(line: string, inside: bool) {
    StartsWith(line, SEQUENCES + ":") || (inside && StartsWith(line, "  "))
  }

  predicate IsSlug(line: string, inside: bool, slug: string) {
    Inside(line, inside) && StartsWith(line, "  " + (slug + ":"))
  }

  function EditLine(line: string, inside: bool, status: string, slug: string, sequence: int): string {
    if IsStatus(line) then StatusLine(status)
    else if IsSlug(line, inside, slug) then SlugLine(slug, sequence)
    else line
  }

  function Edited(ls: seq<string>, inside: bool, status: string, slug: string, sequence: int): seq<string> {
    if ls == [] then []
    else [EditLine(ls[0], inside, status, slug, sequence)]
         + Edited(ls[1..], !IsStatus(ls[0]) && Inside(ls[0], inside), status, slug, sequence)
  }

  function StatusHits(ls: seq<string>): nat {
    if ls == [] then 0 else (if IsStatus(ls[0]) then 1 else 0) + StatusHits(ls[1..])
  }

  function SlugHits(ls: seq<string>, inside: bool, slug: string): nat {
    if ls == [] then 0
    else (if !IsStatus(ls[0]) && IsSlug(ls[0], inside, slug) then 1 else 0)
         + SlugHits(ls[1..], !IsStatus(ls[0]) && Inside(ls[0], inside), slug)
  }

  // ---- the manifest ----

  function Lookup(entries: seq<(string, Value)>, key: string): Option<Value> {
    if entries == [] then None
    else if entries[0].0 == key then Some(entries[0].1)
    else Lookup(entries[1..], key)
  }

  function RequiredString(entries: seq<(string, Value)>, key: string): Option<string> {
    match Lookup(entries, key)
    case Some(Text(t)) => Required(t)
    case _ => None
  }

  predicate Counters(v: Value) {
    v.Mapping? && v.entries != [] && forall i :: 0 <= i < |v.entries| ==>
      v.entries[i].1.Number? && v.entries[i].1.number >= 0
  }

  datatype Manifest = Manifest(feature: string, status: string, stateFile: string, sequences: seq<(string, Value)>)

  /** FeatureManifest.from_yaml; `path` checks a relative path and gives its normal form. */
  function ManifestOf(parsed: Option<Value>, path: string -> Option<string>): Option<Manifest> {
    if parsed.None? || !parsed.value.Mapping? then None
    else
      var es := parsed.value.entries;
      match (RequiredString(es, "schema"), Lookup(es, SEQUENCES), RequiredString(es, "feature_id"),
             RequiredString(es, STATUS), RequiredString(es, "state_file"))
      case (Some(schema), Some(sequences), Some(feature), Some(status), Some(file)) =>
        if schema != FEATURE_SCHEMA || !Counters(sequences) || path(file).None? then None
        else Some(Manifest(feature, status, path(file).value, sequences.entries))
      case _ => None
  }

  /** _project_feature_document: edit, then parse again and check. None stands for a raised error. */
  function Project(text: string, status: string, slug: string, sequence: int,
                   path: string -> Option<string>): Option<string> {
    var ls := SplitKeep(text);
    var out := Join(Edited(ls, false, status, slug, sequence));
    match (ManifestOf(ParseText(text), path), ManifestOf(ParseText(out), path))
    case (Some(before), Some(after)) =>
      if StatusHits(ls) != 1 || SlugHits(ls, false, slug) != 1 then None
      else if after.feature != before.feature || after.stateFile != before.stateFile then None
      else if after.status != status || Lookup(after.sequences, slug) != Some(Number(sequence)) then None
      else Some(out)
    case _ => None
  }

  /** One line of the pass. */
  method EditOne(line: string, inside: bool, status: string, slug: string, sequence: int)
    returns (edited: string, inSequences: bool, statusHit: nat, sequenceHit: nat)
    requires line != ""
    ensures edited == EditLine(line, inside, status, slug, sequence)
    ensures inSequences == (!IsStatus(line) && Inside(line, inside))
    ensures statusHit == (if IsStatus(line) then 1 else 0)
    ensures sequenceHit == (if !IsStatus(line) && IsSlug(line, inside, slug) then 1 else 0)
  {
    edited, inSequences, statusHit, sequenceHit := line, inside, 0, 0;
    if StartsWith(edited, STATUS + ":") {
      edited := StatusLine(status);
      statusHit := 1;
      assert edited[0] == 's';
    }
    if StartsWith(edited, SEQUENCES + ":") {
      inSequences := true;
    } else if inSequences && edited != "" && !StartsWith(edited, "  ") {
      inSequences := false;
    }
    if inSequences && StartsWith(edited, "  " + (slug + ":")) {
      edited := SlugLine(slug, sequence);
      sequenceHit := 1;
    }
  }

  /** One pass with two hit counters and a region flag. */
  method EditAll(ls: seq<string>, status: string, slug: string, sequence: int)
    returns (projected: seq<string>, statusHits: nat, sequenceHits: nat)
    requires forall i :: 0 <= i < |ls| ==> ls[i] != ""
    ensures projected == Edited(ls, false, status, slug, sequence)
    ensures statusHits == StatusHits(ls) && sequenceHits == SlugHits(ls, false, slug)
  {
    projected, statusHits, sequenceHits := [], 0, 0;
    var inSequences := false;
    for i := 0 to |ls|
      invariant Edited(ls, false, status, slug, sequence) ==
                projected + Edited(ls[i..], inSequences, status, slug, sequence)
      invariant StatusHits(ls) == statusHits + StatusHits(ls[i..])
      invariant SlugHits(ls, false, slug) == sequenceHits + SlugHits(ls[i..], inSequences, slug)
    {
      assert ls[i..][1..] == ls[i + 1..];
      var line, s, q;
      line, inSequences, s, q := EditOne(ls[i], inSequences, status, slug, sequence);
      Assoc(projected, [line], Edited(ls[i + 1..], inSequences, status, slug, sequence));
      projected, statusHits, sequenceHits := projected + [line], statusHits + s, sequenceHits + q;
    }
    assert projected + [] == projected;
  }

  lemma NoEmptyLine(ls: seq<string>)
    requires Canonical(ls)
    ensures forall i :: 0 <= i < |ls| ==> ls[i] != ""
  {
  }

  /** The projection as it runs: parse, edit, parse again, compare. */
  method ProjectFeatureDocument(text: string, status: string, slug: string, sequence: int,
                                path: string -> Option<string>)
    returns (r: Option<string>)
    ensures r == Project(text, status, slug, sequence, path)
  {
    var parsed := ParseRestrictedYaml(text);
    var before := ManifestOf(parsed, path);
    if before.None? {
      return None;
    }
    var ls := SplitKeep(text);
    SplitCanonical(text);
    NoEmptyLine(ls);
    var projected, statusHits, sequenceHits := EditAll(ls, status, slug, sequence);
    if statusHits != 1 || sequenceHits != 1 {
      return None;
    }
    var result := Join(projected);
    parsed := ParseRestrictedYaml(result);
    var after := ManifestOf(parsed, path);
    if after.None? || after.value.feature != before.value.feature || after.value.stateFile != before.value.stateFile
       || after.value.status != status || Lookup(after.value.sequences, slug) != Some(Number(sequence)) {
      return None;
    }
    return Some(result);
  }
}
