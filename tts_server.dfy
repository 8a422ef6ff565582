/** The pure parts of the speech server: the search for an audio URL in
    whatever the speech-synthesis service returned, the language parameter
    passed to transcription, and the reply audio URL of a conversation
    turn. */
module TtsServer {
  import opened Wrappers
  import opened Text

  /** The JSON-like values the synthesis client hands back. Sets and
      arbitrary objects are not modelled. */
  datatype PyValue =
    | PyNone
    | PyBool(b: bool)
    | PyInt(i: int)
    | PyStr(s: string)
    | PyList(items: seq<PyValue>)
    | PyTuple(items: seq<PyValue>)
    | PyDict(entries: seq<Entry>)

  /** A dict entry, in insertion order. */
  datatype Entry = Entry(key: PyValue, value: PyValue)

  const UnexpectedOutput := "Unexpected TTS output format"
  const AudioExtensions := [".wav", ".mp3", ".m4a", ".ogg"]

  // ---------------------------------------------------------------------
  // The pattern https?://\S+

  /** Python's `\s` on str patterns: the characters for which str.isspace()
      holds. */
  predicate IsPySpace(c: char) {
    c == ' ' || ('\t' <= c <= '\r') || ('\U{1C}' <= c <= '\U{1F}')
    || c == '\U{85}' || c == '\U{A0}' || c == '\U{1680}' || ('\U{2000}' <= c <= '\U{200A}')
    || c == '\U{2028}' || c == '\U{2029}' || c == '\U{202F}' || c == '\U{205F}' || c == '\U{3000}'
  }

  predicate NoSpace(s: string) {
    forall k | 0 <= k < |s| :: !IsPySpace(s[k])
  }

  /** The longest prefix of `s` without white space (`\S*`, greedy). */
  function NonSpaceRun(s: string): (r: nat)
    ensures r <= |s| && NoSpace(s[..r])
    ensures r == |s| || IsPySpace(s[r])
  {
    if s == [] || IsPySpace(s[0]) then 0
    else
      var k := NonSpaceRun(s[1..]);
      assert s[..k + 1] == [s[0]] + s[1..][..k];
      k + 1
  }

  /** The length of the match of `https?://\S+` starting at `s[i]`, if any:
      the scheme, then at least one non-space character, as many as
      follow. */
  function MatchAt(s: string, i: nat): (r: Option<nat>)
    requires i <= |s|
    ensures r.Some? ==> MaximalMatch(s, i, r.value)
  {
    var scheme := if StartsWith(s[i..], "https://") then "https://" else "http://";
    if StartsWith(s[i..], scheme) then MatchAfter(s, i, scheme) else None
  }

  /** The match once `s[i..]` starts with `scheme`: none when white space or
      the end follows the scheme (for "https://" the shorter "http" then
      meets an 's' where ':' is needed, so that fails too). */
  function MatchAfter(s: string, i: nat, scheme: string): (r: Option<nat>)
    requires scheme == "https://" || scheme == "http://"
    requires i <= |s| && StartsWith(s[i..], scheme)
    ensures r.Some? <==> i + |scheme| < |s| && !IsPySpace(s[i + |scheme|])
    ensures r.Some? ==> MaximalMatch(s, i, r.value)
  {
    var n := |scheme|;
    if i + n == |s| || IsPySpace(s[i + n]) then None
    else
      var k := NonSpaceRun(s[i + n..]);
      MatchShape(s, i, scheme, k);
      Some(n + k)
  }

  /** A scheme at `s[i]` followed by a run of `k >= 1` non-space characters
      is a match, and the run ends where the characters do. */
  lemma MatchShape(s: string, i: nat, scheme: string, k: nat)
    requires scheme == "https://" || scheme == "http://"
    requires i <= |s| && StartsWith(s[i..], scheme)
    requires i + |scheme| + k <= |s| && NoSpace(s[i + |scheme|..][..k])
    requires i + |scheme| + k == |s| || IsPySpace(s[i + |scheme| + k])
    requires i + |scheme| < |s| && !IsPySpace(s[i + |scheme|])
    ensures MaximalMatch(s, i, |scheme| + k)
  {
    var rest := s[i + |scheme|..];
    assert k != 0 by { assert s[i + |scheme|] == rest[0]; }
    var m := s[i..i + |scheme| + k];
    assert m == scheme + rest[..k] by {
      assert m[..|scheme|] == s[i..][..|scheme|];
      assert m[|scheme|..] == rest[..k];
    }
    assert NoSpace(scheme);
    assert forall j | 0 <= j < |m| :: !IsPySpace(m[j]) by {
      forall j | 0 <= j < |m|
        ensures !IsPySpace(m[j])
      {
        if j >= |scheme| {
          assert m[j] == rest[..k][j - |scheme|];
        } else {
          assert m[j] == scheme[j];
        }
      }
    }
    assert m[..|scheme|] == scheme;
  }

  /** Where the pattern can match: "https://" or "http://" followed by a
      character that is not white space (the `s?` gives way when "https://"
      is followed by white space, but "http" then meets an 's', not ':'). */
  predicate SchemeThenNonSpace(s: string, i: nat)
    requires i <= |s|
  {
    || (StartsWith(s[i..], "https://") && i + 8 < |s| && !IsPySpace(s[i + 8]))
    || (StartsWith(s[i..], "http://") && i + 7 < |s| && !IsPySpace(s[i + 7]))
  }

  /** A match starts exactly where a scheme is followed by a character that
      is not white space. */
  lemma MatchAtIffScheme(s: string, i: nat)
    requires i <= |s|
    ensures MatchAt(s, i).Some? <==> SchemeThenNonSpace(s, i)
  {
    var t := s[i..];
    assert StartsWith(t, "https://") ==> t[4] == 's' && !StartsWith(t, "http://");
  }

  /** `s[i..i + n]` is a match that white space or the end of `s` stops. */
  predicate MaximalMatch(s: string, i: nat, n: nat) {
    i + n <= |s| && ValidMatch(s[i..i + n]) && (i + n == |s| || IsPySpace(s[i + n]))
  }

  /** What every match looks like. */
  predicate ValidMatch(m: string) {
    ((StartsWith(m, "http://") && |m| > 7) || (StartsWith(m, "https://") && |m| > 8)) && NoSpace(m)
  }

  /** `re.search`: the match at the leftmost position where there is one,
      looking from position `from` on. */
  function SearchFrom(s: string, from: nat): (r: Option<(nat, nat)>)
    requires from <= |s|
    ensures r.Some? ==> from <= r.value.0 && r.value.0 + r.value.1 <= |s|
                        && MatchAt(s, r.value.0) == Some(r.value.1)
    ensures r.Some? ==> forall j | from <= j < r.value.0 :: MatchAt(s, j).None?
    ensures r.None? ==> forall j | from <= j <= |s| :: MatchAt(s, j).None?
    decreases |s| - from
  {
    var m := MatchAt(s, from);
    if m.Some? then Some((from, m.value))
    else if from == |s| then None
    else SearchFrom(s, from + 1)
  }

  /** `url_re.search(s).group(0)`, or None without a match. */
  function SearchUrl(s: string): (r: Option<string>)
  {
    match SearchFrom(s, 0)
    case Some((start, len)) => Some(s[start..start + len])
    case None => None
  }

  /** A hit starts with the scheme, holds no white space, occurs in `s`,
      runs to the next white space or the end, and no earlier position
      starts a match. */
  lemma SearchUrlHit(s: string)
    requires SearchUrl(s).Some?
    ensures var m := SearchUrl(s).value;
            && ValidMatch(m)
            && exists start | 0 <= start <= |s| - |m| :: LeftmostMatchAt(s, m, start)
  {
    var hit := SearchFrom(s, 0).value;
    var start, len := hit.0, hit.1;
    var m := s[start..start + len];
    assert SearchUrl(s) == Some(m);
    HitIsLeftmost(s, start, len);
  }

  lemma HitIsLeftmost(s: string, start: nat, len: nat)
    requires start + len <= |s| && MatchAt(s, start) == Some(len)
    requires forall j | 0 <= j < start :: MatchAt(s, j).None?
    ensures ValidMatch(s[start..start + len])
    ensures LeftmostMatchAt(s, s[start..start + len], start)
  {
    var m := s[start..start + len];
    assert |m| == len;
  }

  /** `m` occurs in `s` at `start`, runs to the next white space or the end,
      and no earlier position starts a match. */
  predicate LeftmostMatchAt(s: string, m: string, start: nat)
    requires start + |m| <= |s|
  {
    && s[start..start + |m|] == m
    && (start + |m| == |s| || IsPySpace(s[start + |m|]))
    && forall j | 0 <= j < start :: MatchAt(s, j).None?
  }

  /** Without a hit no position of `s` starts a match. */
  lemma SearchUrlMiss(s: string)
    requires SearchUrl(s).None?
    ensures forall j | 0 <= j <= |s| :: MatchAt(s, j).None?
    ensures forall j | 0 <= j <= |s| :: !SchemeThenNonSpace(s, j)
  {
    forall j | 0 <= j <= |s|
      ensures !SchemeThenNonSpace(s, j)
    {
      MatchAtIffScheme(s, j);
    }
  }

  /** Conversely, a string in which a scheme is followed by a non-space
      character always has a hit, starting there or earlier. */
  lemma SearchUrlFindsScheme(s: string, i: nat)
    requires i <= |s| && SchemeThenNonSpace(s, i)
    ensures SearchUrl(s).Some?
    ensures SearchFrom(s, 0).Some? && SearchFrom(s, 0).value.0 <= i
  {
    MatchAtIffScheme(s, i);
  }

  /** A string without an 'h' holds no URL (so neither does the str() of a
      number or a bool). */
  lemma NoSchemeNoUrl(s: string)
    requires 'h' !in s
    ensures SearchUrl(s).None?
  {
    forall j | 0 <= j <= |s|
      ensures MatchAt(s, j).None?
    {
      if j < |s| {
        assert s[j..][0] == s[j];
      }
    }
    NoMatchNoSearch(s, 0);
  }

  lemma {:induction false} NoMatchNoSearch(s: string, from: nat)
    requires from <= |s|
    requires forall j | from <= j <= |s| :: MatchAt(s, j).None?
    ensures SearchFrom(s, from).None?
    decreases |s| - from
  {
    if from < |s| {
      NoMatchNoSearch(s, from + 1);
    }
  }

  // ---------------------------------------------------------------------
  // find_url_in_obj

  predicate HasAudioExtension(s: string) {
    exists e | e in AudioExtensions :: EndsWith(s, e)
  }

  /** The string branch: the regex match, else the whole string when it ends
      in an audio extension. */
  function FindInString(s: string): (r: Option<string>)
    ensures SearchUrl(s).Some? ==> r == SearchUrl(s)
    ensures SearchUrl(s).None? && HasAudioExtension(s) ==> r == Some(s)
    ensures SearchUrl(s).None? && !HasAudioExtension(s) ==> r == None
  {
    match SearchUrl(s)
    case Some(m) => Some(m)
    case None => if HasAudioExtension(s) then Some(s) else None
  }

  /** `str(obj)` for the scalars, which reach the last-resort search. */
  function PyStrOf(v: PyValue): string
    requires v.PyBool? || v.PyInt?
  {
    if v.PyBool? then (if v.b then "True" else "False") else IntString(v.i)
  }

  /** find_url_in_obj. */
  function FindUrl(v: PyValue): Option<string>
    decreases v, 1
  {
    match v
    case PyNone => None
    case PyStr(s) => FindInString(s)
    case PyList(items) => FirstHit(v, items)
    case PyTuple(items) => FirstHit(v, items)
    case PyDict(entries) =>
      (match FirstValueHit(v, entries)
       case Some(r) => Some(r)
       case None => FirstKeyHit(entries))
    case PyBool(_) => SearchUrl(PyStrOf(v))
    case PyInt(_) => SearchUrl(PyStrOf(v))
  }

  /** The first item, in order, whose search has a result. */
  function FirstHit(ghost parent: PyValue, items: seq<PyValue>): Option<string>
    requires forall x | x in items :: x < parent
    decreases parent, 0, |items|
  {
    if items == [] then None
    else
      assert items[0] in items;
      assert forall x | x in items[1..] :: x in items;
      match FindUrl(items[0])
      case Some(r) => Some(r)
      case None => FirstHit(parent, items[1..])
  }

  /** The first value, in order, whose search has a result. */
  function FirstValueHit(ghost parent: PyValue, entries: seq<Entry>): Option<string>
    requires forall e | e in entries :: e.value < parent
    decreases parent, 0, |entries|
  {
    if entries == [] then None
    else
      assert entries[0] in entries;
      assert forall e | e in entries[1..] :: e in entries;
      match FindUrl(entries[0].value)
      case Some(r) => Some(r)
      case None => FirstValueHit(parent, entries[1..])
  }

  /** The first string key, in order, with a regex match. */
  function FirstKeyHit(entries: seq<Entry>): Option<string> {
    if entries == [] then None
    else if entries[0].key.PyStr? && SearchUrl(entries[0].key.s).Some? then SearchUrl(entries[0].key.s)
    else FirstKeyHit(entries[1..])
  }

  /** Every search result is non-empty, so the source's truthiness test on
      a result is just "found". */
  lemma {:induction false} FindUrlNonEmpty(v: PyValue)
    ensures FindUrl(v).Some? ==> FindUrl(v).value != []
    decreases v, 1
  {
    match v
    case PyStr(s) =>
      if SearchUrl(s).Some? {
        SearchUrlHit(s);
      } else if HasAudioExtension(s) {
        var e :| e in AudioExtensions && EndsWith(s, e);
      }
    case PyList(items) => FirstHitNonEmpty(v, items);
    case PyTuple(items) => FirstHitNonEmpty(v, items);
    case PyDict(entries) =>
      FirstValueHitNonEmpty(v, entries);
      FirstKeyHitNonEmpty(entries);
    case PyBool(_) => NumbersHoldNoUrl(v);
    case PyInt(_) => NumbersHoldNoUrl(v);
    case PyNone =>
  }

  lemma {:induction false} FirstHitNonEmpty(parent: PyValue, items: seq<PyValue>)
    requires forall x | x in items :: x < parent
    ensures FirstHit(parent, items).Some? ==> FirstHit(parent, items).value != []
    decreases parent, 0, |items|
  {
    if items != [] {
      assert items[0] in items;
      assert forall x | x in items[1..] :: x in items;
      FindUrlNonEmpty(items[0]);
      FirstHitNonEmpty(parent, items[1..]);
    }
  }

  lemma {:induction false} FirstValueHitNonEmpty(parent: PyValue, entries: seq<Entry>)
    requires forall e | e in entries :: e.value < parent
    ensures FirstValueHit(parent, entries).Some? ==> FirstValueHit(parent, entries).value != []
    decreases parent, 0, |entries|
  {
    if entries != [] {
      assert entries[0] in entries;
      assert forall e | e in entries[1..] :: e in entries;
      FindUrlNonEmpty(entries[0].value);
      FirstValueHitNonEmpty(parent, entries[1..]);
    }
  }

  lemma {:induction false} FirstKeyHitNonEmpty(entries: seq<Entry>)
    ensures FirstKeyHit(entries).Some? ==> FirstKeyHit(entries).value != []
    decreases |entries|
  {
    if entries != [] {
      if entries[0].key.PyStr? && SearchUrl(entries[0].key.s).Some? {
        SearchUrlHit(entries[0].key.s);
      } else {
        FirstKeyHitNonEmpty(entries[1..]);
      }
    }
  }

  /** Numbers and booleans print without an 'h', so they never yield a URL. */
  lemma NumbersHoldNoUrl(v: PyValue)
    requires v.PyBool? || v.PyInt?
    ensures SearchUrl(PyStrOf(v)).None?
  {
    var s := PyStrOf(v);
    if v.PyInt? {
      assert forall k | 0 <= k < |s| :: s[k] == '-' || IsDigit(s[k]);
    }
    NoSchemeNoUrl(s);
  }

  /** A list or tuple yields a result exactly when one of its items does ... */
  lemma {:induction false} FirstHitNoneIff(parent: PyValue, items: seq<PyValue>)
    requires forall x | x in items :: x < parent
    ensures FirstHit(parent, items).None? <==> forall k | 0 <= k < |items| :: FindUrl(items[k]).None?
    decreases |items|
  {
    if items != [] {
      assert forall x | x in items[1..] :: x in items;
      FirstHitNoneIff(parent, items[1..]);
      assert forall k | 1 <= k < |items| :: items[k] == items[1..][k - 1];
    }
  }

  /** ... and when one does, the result is that of the first such item. */
  lemma {:induction false} FirstHitIsFirst(parent: PyValue, items: seq<PyValue>)
    requires forall x | x in items :: x < parent
    ensures FirstHit(parent, items).Some? ==>
              exists k | 0 <= k < |items| ::
                && FindUrl(items[k]) == FirstHit(parent, items)
                && forall j | 0 <= j < k :: FindUrl(items[j]).None?
    decreases |items|
  {
    if items != [] {
      assert forall x | x in items[1..] :: x in items;
      FirstHitIsFirst(parent, items[1..]);
      if FindUrl(items[0]).None? {
        assert forall k | 1 <= k < |items| :: items[k] == items[1..][k - 1];
        if FirstHit(parent, items[1..]).Some? {
          var k :| 0 <= k < |items[1..]| && FindUrl(items[1..][k]) == FirstHit(parent, items[1..])
                   && forall j | 0 <= j < k :: FindUrl(items[1..][j]).None?;
          assert FindUrl(items[k + 1]) == FirstHit(parent, items);
          assert forall j | 0 <= j < k + 1 :: FindUrl(items[j]).None? by {
            forall j | 0 <= j < k + 1
              ensures FindUrl(items[j]).None?
            {
              if j > 0 {
                assert items[j] == items[1..][j - 1];
              }
            }
          }
        }
      } else {
        assert FindUrl(items[0]) == FirstHit(parent, items);
      }
    }
  }

  /** A dict yields a value's result whenever one of its values yields one;
      its keys are searched, string keys with the pattern only, only when no
      value yields anything. */
  lemma DictValuesFirst(entries: seq<Entry>)
    ensures var d := PyDict(entries);
            && (FirstValueHit(d, entries).Some? ==> FindUrl(d) == FirstValueHit(d, entries))
            && (FirstValueHit(d, entries).None? ==> FindUrl(d) == FirstKeyHit(entries))
  {
  }

  /** A key yields only through the pattern: a key that merely ends in an
      audio extension is not a result. */
  lemma {:induction false} KeyHitIsMatch(entries: seq<Entry>)
    ensures FirstKeyHit(entries).Some? ==>
              exists k | 0 <= k < |entries| ::
                entries[k].key.PyStr? && FirstKeyHit(entries) == SearchUrl(entries[k].key.s)
    ensures FirstKeyHit(entries).Some? ==> ValidMatch(FirstKeyHit(entries).value)
    decreases |entries|
  {
    if entries != [] {
      if entries[0].key.PyStr? && SearchUrl(entries[0].key.s).Some? {
        SearchUrlHit(entries[0].key.s);
      } else {
        KeyHitIsMatch(entries[1..]);
        if FirstKeyHit(entries).Some? {
          var k :| 0 <= k < |entries[1..]| && entries[1..][k].key.PyStr?
                   && FirstKeyHit(entries[1..]) == SearchUrl(entries[1..][k].key.s);
          assert entries[k + 1] == entries[1..][k];
        }
      }
    }
  }

  /** extract_audio_url_from_replicate_output. */
  function ExtractAudioUrl(output: PyValue): (r: Result<string, string>)
    ensures r.Failure? <==> FindUrl(output).None?
    ensures r.Failure? ==> r.error == UnexpectedOutput
    ensures r.Success? ==> r.value == FindUrl(output).value && r.value != []
  {
    FindUrlNonEmpty(output);
    match FindUrl(output)
    case Some(url) => Success(url)
    case None => Failure(UnexpectedOutput)
  }

  // ---------------------------------------------------------------------
  // Small helpers of the conversation endpoint

  /** The language passed to transcription: none for a missing or "auto"
      language, the language itself otherwise. */
  function LanguageParam(lang: Option<string>): (r: Option<string>)
    ensures r.None? <==> lang.None? || lang.value == "auto"
    ensures r.Some? ==> r == lang
  {
    if lang.None? || lang.value == "auto" then None else lang
  }

  const OutputDir := "static/tts_outputs"

  /** Where a turn's synthesized audio is written and the URL it is served
      at; the client resolves the URL against its base. */
  datatype ReplyAudio = ReplyAudio(filename: string, outPath: string, url: string)

  function ReplyAudioFor(fileId: string): (r: ReplyAudio)
    ensures r.url == "/static/tts_outputs/" + fileId + ".mp3"
    ensures r.url == "/" + r.outPath
  {
    var filename := fileId + ".mp3";
    ReplyAudio(filename, OutputDir + "/" + filename, "/static/tts_outputs/" + filename)
  }

  /** For an id without '/', such as a UUID, the URL and the output path end
      in the same file name. */
  lemma ReplyAudioSameFile(fileId: string)
    requires '/' !in fileId
    ensures LastSegment(ReplyAudioFor(fileId).url) == ReplyAudioFor(fileId).filename
    ensures LastSegment(ReplyAudioFor(fileId).outPath) == ReplyAudioFor(fileId).filename
  {
    var r := ReplyAudioFor(fileId);
    assert r.url == "/static/tts_outputs" + "/" + r.filename;
    assert '/' !in r.filename by {
      assert forall k | 0 <= k < |r.filename| :: r.filename[k] == (fileId + ".mp3")[k];
    }
    LastSegmentAfterSlash("/static/tts_outputs", r.filename);
    LastSegmentAfterSlash(OutputDir, r.filename);
  }

  lemma {:induction false} LastSegmentAfterSlash(dir: string, name: string)
    requires '/' !in name
    ensures LastSegment(dir + "/" + name) == name
    decreases |name|
  {
    if name == [] {
      assert (dir + "/" + name)[|dir + "/" + name| - 1] == '/';
    } else {
      var s := dir + "/" + name;
      assert s[..|s| - 1] == dir + "/" + name[..|name| - 1];
      assert forall c | c in name[..|name| - 1] :: c in name;
      LastSegmentAfterSlash(dir, name[..|name| - 1]);
      assert name[..|name| - 1] + [name[|name| - 1]] == name;
    }
  }
}
