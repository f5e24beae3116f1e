/** Image URLs as the service prints them, and the grammar by which each image host reads them. */
module ImagePath {
  import opened Contract
  import opened Text
  import opened Decimal
  import M = MediaSpec

  // ---- printing -----------------------------------------------------------

  function ProcessingPath(preset: string, source: string, exp: Option<int>): string {
    match exp
    case Some(unix) => "/pr:" + preset + "/exp:" + FormatInt(unix) + "/plain/" + source
    case None => "/" + preset + "/plain/" + source
  }

  function TrimRight(s: string, c: char): string {
    if s != "" && s[|s| - 1] == c then TrimRight(s[..|s| - 1], c) else s
  }

  /** `mac` stands for the keyed digest of a path in URL-safe base 64. */
  function SignedImageUrl(base: string, preset: string, source: string, exp: Option<int>, mac: string -> string)
    : string
  {
    var path := ProcessingPath(preset, source, exp);
    TrimRight(base, '/') + "/" + mac(path) + path
  }

  // ---- reading ------------------------------------------------------------

  datatype Conf = Conf(onlyPresets: bool, allowedOptions: seq<string>, presets: set<string>)

  datatype ParseError =
    | EmptyPath | UnknownPreset | DeprecatedFormat | ForbiddenOption
    | TooManyExpires | BadTimestamp | ExpiredUrl | UnmodelledOption
    | EmptyUrl | NotPlain | MultipleFormats

  predicate AllKnown(c: Conf, names: seq<string>) {
    forall k | 0 <= k < |names| :: names[k] in c.presets
  }

  predicate DeprecatedResize(segment: string) {
    segment in {"fit", "fill", "fill-down", "force", "auto"}
  }

  function OptionError(c: Conf, args: seq<string>, now: int): Option<ParseError>
    requires |args| >= 2
  {
    if c.allowedOptions != [] && args[0] !in c.allowedOptions then Some(ForbiddenOption)
    else if args[0] == "preset" || args[0] == "pr" then
      if AllKnown(c, args[1..]) then None else Some(UnknownPreset)
    else if args[0] == "expires" || args[0] == "exp" then
      if |args| > 2 then Some(TooManyExpires)
      else
        match ParseInt(args[1])
        case None => Some(BadTimestamp)
        case Some(ts) => if ts > 0 && ts < now then Some(ExpiredUrl) else None
    else Some(UnmodelledOption)
  }

  /** Segments are options until the first without a colon, which starts the source. */
  function OptionsError(c: Conf, parts: seq<string>, now: int): Option<ParseError> {
    if parts == [] then SourceError([])
    else
      var args := Split(parts[0], ':');
      if |args| == 1 then SourceError(parts)
      else
        match OptionError(c, args, now)
        case Some(e) => Some(e)
        case None => OptionsError(c, parts[1..], now)
  }

  function SourceError(urlParts: seq<string>): Option<ParseError> {
    if |urlParts| == 0 then Some(EmptyUrl)
    else if urlParts[0] != "plain" || |urlParts| < 2 then Some(NotPlain)
    else
      var enc := Split(Join(urlParts[1..], '/'), '@');
      if enc[0] == "" then Some(EmptyUrl)
      else if |enc| > 2 then Some(MultipleFormats)
      else None
  }

  function PathError(c: Conf, path: string, now: int): Option<ParseError> {
    if path == "" || path == "/" then Some(EmptyPath)
    else
      var parts := Split(TrimPrefix(path, "/"), '/');
      if c.onlyPresets then
        if AllKnown(c, Split(parts[0], ':')) then SourceError(parts[1..]) else Some(UnknownPreset)
      else if DeprecatedResize(parts[0]) then Some(DeprecatedFormat)
      else OptionsError(c, parts, now)
  }

  method KnownPresets(c: Conf, names: seq<string>) returns (ok: bool)
    ensures ok == AllKnown(c, names)
  {
    for k := 0 to |names|
      invariant AllKnown(c, names[..k])
    {
      if names[k] !in c.presets {
        return false;
      }
      assert names[..k + 1] == names[..k] + [names[k]];
    }
    assert names[..|names|] == names;
    return true;
  }

  method ParseImagePath(c: Conf, path: string, now: int) returns (err: Option<ParseError>)
    ensures err == PathError(c, path, now)
  {
    if path == "" || path == "/" {
      return Some(EmptyPath);
    }
    var parts := Split(TrimPrefix(path, "/"), '/');
    var urlParts: seq<string>;
    if c.onlyPresets {
      var known := KnownPresets(c, Split(parts[0], ':'));
      if !known {
        return Some(UnknownPreset);
      }
      urlParts := parts[1..];
    } else {
      if DeprecatedResize(parts[0]) {
        return Some(DeprecatedFormat);
      }
      var start := |parts|;
      var i := 0;
      while i < |parts|
        invariant 0 <= i <= |parts| && start == |parts|
        invariant OptionsError(c, parts, now) == OptionsError(c, parts[i..], now)
      {
        var args := Split(parts[i], ':');
        if |args| == 1 {
          start := i;
          break;
        }
        if |c.allowedOptions| > 0 && args[0] !in c.allowedOptions {
          return Some(ForbiddenOption);
        }
        if args[0] == "preset" || args[0] == "pr" {
          var known := KnownPresets(c, args[1..]);
          if !known {
            return Some(UnknownPreset);
          }
        } else if args[0] == "expires" || args[0] == "exp" {
          if |args[1..]| > 1 {
            return Some(TooManyExpires);
          }
          var ts := ParseInt(args[1]);
          if ts.None? {
            return Some(BadTimestamp);
          }
          if ts.value > 0 && ts.value < now {
            return Some(ExpiredUrl);
          }
        } else {
          return Some(UnmodelledOption);
        }
        assert parts[i..][1..] == parts[i + 1..];
        i := i + 1;
      }
      urlParts := parts[start..];
    }
    if |urlParts| == 0 {
      return Some(EmptyUrl);
    }
    if urlParts[0] != "plain" || |urlParts| < 2 {
      return Some(NotPlain);
    }
    var enc := Split(Join(urlParts[1..], '/'), '@');
    if enc[0] == "" {
      return Some(EmptyUrl);
    }
    if |enc| > 2 {
      return Some(MultipleFormats);
    }
    return None;
  }

  // ---- each printed form reads back on its own host only --------------------

  function PresetNames(): set<string> {
    set p | p in M.PRESET_ORDER :: M.PresetName(p)
  }

  const PUBLIC_HOST := Conf(true, [], PresetNames())
  const GRANTED_HOST := Conf(false, ["pr", "exp"], PresetNames())

  /** A source a host can fetch: something before at most one `@format` suffix. */
  predicate SourceReadable(source: string) {
    var enc := Split(source, '@');
    enc[0] != "" && |enc| <= 2
  }

  lemma PlainSourceReadable(source: string)
    requires '@' !in source
    ensures SourceReadable(source) <==> source != ""
  {
    SplitFree(source, '@');
  }

  lemma SourceSegments(source: string)
    ensures SourceError(["plain"] + Split(source, '/')) == None <==> SourceReadable(source)
  {
    JoinSplit(source, '/');
    assert (["plain"] + Split(source, '/'))[1..] == Split(source, '/');
  }

  lemma PublicSegments(preset: string, source: string)
    requires '/' !in preset
    ensures Split(TrimPrefix(ProcessingPath(preset, source, None), "/"), '/')
         == [preset] + (["plain"] + Split(source, '/'))
  {
    var tail := "plain" + ['/'] + source;
    var path := ProcessingPath(preset, source, None);
    assert path == "/" + (preset + ['/'] + tail);
    SplitHead("plain", '/', source);
    SplitHead(preset, '/', tail);
  }

  lemma GrantedSegments(preset: string, unix: int, source: string)
    requires '/' !in preset
    ensures Split(TrimPrefix(ProcessingPath(preset, source, Some(unix)), "/"), '/')
         == ["pr:" + preset] + (["exp:" + FormatInt(unix)] + (["plain"] + Split(source, '/')))
  {
    var stamp := "exp:" + FormatInt(unix);
    FormatIntChars(unix);
    var tail := "plain" + ['/'] + source;
    var rest := stamp + ['/'] + tail;
    var path := ProcessingPath(preset, source, Some(unix));
    GrantedShape(preset, FormatInt(unix), source);
    SplitHead("plain", '/', source);
    SplitHead(stamp, '/', tail);
    SplitHead("pr:" + preset, '/', rest);
  }

  lemma GrantedShape(preset: string, stamp: string, source: string)
    ensures "/pr:" + preset + "/exp:" + stamp + "/plain/" + source
         == "/" + (("pr:" + preset) + ['/'] + (("exp:" + stamp) + ['/'] + ("plain" + ['/'] + source)))
  {
    assert "/pr:" == "/" + "pr:" && "/exp:" == ['/'] + "exp:" && "/plain/" == ['/'] + "plain" + ['/'];
  }

  /** The public form: its own host takes it exactly when the preset is configured and the source readable. */
  lemma PublicFormOnPublicHost(preset: string, source: string, now: int)
    requires Bare(preset)
    ensures PathError(PUBLIC_HOST, ProcessingPath(preset, source, None), now) == None
       <==> preset in PresetNames() && SourceReadable(source)
  {
    M.BareFree(preset, '/');
    M.BareFree(preset, ':');
    SplitFree(preset, ':');
    PublicSegments(preset, source);
    SourceSegments(source);
    var parts := [preset] + (["plain"] + Split(source, '/'));
    assert parts[1..] == ["plain"] + Split(source, '/');
    assert AllKnown(PUBLIC_HOST, [preset]) <==> preset in PresetNames() by {
      assert [preset][0] == preset;
    }
  }

  /** The granted host never takes a public form: a bare preset reads as the start of a source. */
  lemma PublicFormOnGrantedHost(preset: string, source: string, now: int)
    requires Bare(preset) && preset != "plain"
    ensures PathError(GRANTED_HOST, ProcessingPath(preset, source, None), now).Some?
  {
    M.BareFree(preset, '/');
    M.BareFree(preset, ':');
    SplitFree(preset, ':');
    PublicSegments(preset, source);
  }

  lemma ExpOption(unix: int, now: int)
    ensures Split("exp:" + FormatInt(unix), ':') == ["exp", FormatInt(unix)]
    ensures OptionError(GRANTED_HOST, ["exp", FormatInt(unix)], now) ==
            if !(INT64_MIN <= unix <= INT64_MAX) then Some(BadTimestamp)
            else if unix > 0 && unix < now then Some(ExpiredUrl) else None
  {
    FormatIntChars(unix);
    SplitFree(FormatInt(unix), ':');
    SplitHead("exp", ':', FormatInt(unix));
    assert "exp:" + FormatInt(unix) == "exp" + [':'] + FormatInt(unix);
    ParseFormat(unix);
    assert ["pr", "exp"][1] == "exp";
  }

  lemma PrOption(preset: string, now: int)
    requires ':' !in preset
    ensures Split("pr:" + preset, ':') == ["pr", preset]
    ensures OptionError(GRANTED_HOST, ["pr", preset], now) ==
            if preset in PresetNames() then None else Some(UnknownPreset)
  {
    SplitFree(preset, ':');
    SplitHead("pr", ':', preset);
    assert "pr:" + preset == "pr" + [':'] + preset;
    assert ["pr", "exp"][0] == "pr";
    assert ["pr", preset][1..] == [preset];
    assert [preset][0] == preset;
  }

  /** The granted form: its own host takes it exactly while unexpired, for a configured preset and a readable source. */
  lemma GrantedFormOnGrantedHost(preset: string, unix: int, source: string, now: int)
    requires Bare(preset)
    ensures PathError(GRANTED_HOST, ProcessingPath(preset, source, Some(unix)), now) == None
       <==> && preset in PresetNames() && SourceReadable(source)
            && INT64_MIN <= unix <= INT64_MAX && (unix <= 0 || now <= unix)
  {
    M.BareFree(preset, '/');
    M.BareFree(preset, ':');
    GrantedSegments(preset, unix, source);
    PrOption(preset, now);
    ExpOption(unix, now);
    SourceSegments(source);
    GrantedOptions(preset, unix, source, now);
  }

  lemma GrantedOptions(preset: string, unix: int, source: string, now: int)
    requires Split("pr:" + preset, ':') == ["pr", preset]
    requires Split("exp:" + FormatInt(unix), ':') == ["exp", FormatInt(unix)]
    ensures
      var tail := ["plain"] + Split(source, '/');
      var parts := ["pr:" + preset] + (["exp:" + FormatInt(unix)] + tail);
      !DeprecatedResize(parts[0]) &&
      OptionsError(GRANTED_HOST, parts, now) ==
        match OptionError(GRANTED_HOST, ["pr", preset], now)
        case Some(e) => Some(e)
        case None =>
          match OptionError(GRANTED_HOST, ["exp", FormatInt(unix)], now)
          case Some(e) => Some(e)
          case None => SourceError(tail)
  {
    var tail := ["plain"] + Split(source, '/');
    var rest := ["exp:" + FormatInt(unix)] + tail;
    OptionStep(GRANTED_HOST, "pr:" + preset, ["pr", preset], rest, now);
    OptionStep(GRANTED_HOST, "exp:" + FormatInt(unix), ["exp", FormatInt(unix)], tail, now);
    PlainStarts(GRANTED_HOST, Split(source, '/'), now);
    assert ("pr:" + preset)[0] == 'p';
  }

  lemma OptionStep(c: Conf, head: string, args: seq<string>, rest: seq<string>, now: int)
    requires Split(head, ':') == args && |args| >= 2
    ensures OptionsError(c, [head] + rest, now) ==
            match OptionError(c, args, now)
            case Some(e) => Some(e)
            case None => OptionsError(c, rest, now)
  {
    assert ([head] + rest)[1..] == rest;
  }

  lemma PlainStarts(c: Conf, rest: seq<string>, now: int)
    ensures OptionsError(c, ["plain"] + rest, now) == SourceError(["plain"] + rest)
  {
    SplitFree("plain", ':');
  }

  /** And it takes no option but these two, whatever follows. */
  lemma OtherOptionsForbidden(name: string, value: string, rest: string, now: int)
    requires '/' !in name && ':' !in name && '/' !in value && name !in {"pr", "exp"}
    ensures PathError(GRANTED_HOST, "/" + name + ":" + value + "/" + rest, now) == Some(ForbiddenOption)
  {
    var head := name + ":" + value;
    var path := "/" + name + ":" + value + "/" + rest;
    assert path == "/" + (head + ['/'] + rest) && TrimPrefix(path, "/") == head + ['/'] + rest;
    SplitHead(head, '/', rest);
    SplitApart(name, ':', value);
    SplitFree(name, ':');
    assert head == name + [':'] + value && head[|name|] == ':';
    ColonIsNoResize(head);
    OptionStep(GRANTED_HOST, head, [name] + Split(value, ':'), Split(rest, '/'), now);
  }

  lemma ColonIsNoResize(segment: string)
    requires ':' in segment
    ensures !DeprecatedResize(segment)
  {
    BareFree("fit");
    BareFree("fill");
    BareFree("force");
    BareFree("auto");
    assert ':' !in "fill-down";
  }

  lemma BareFree(word: string)
    requires Bare(word)
    ensures ':' !in word
  {
  }

  /** The presets-only host never takes a granted form, whatever its expiry. */
  lemma GrantedFormOnPublicHost(preset: string, unix: int, source: string, now: int)
    requires Bare(preset)
    ensures PathError(PUBLIC_HOST, ProcessingPath(preset, source, Some(unix)), now) == Some(UnknownPreset)
  {
    M.BareFree(preset, '/');
    M.BareFree(preset, ':');
    GrantedSegments(preset, unix, source);
    PrOption(preset, now);
    var names := Split("pr:" + preset, ':');
    assert names[0] == "pr" && |"pr"| == 2;
    assert "pr" !in PresetNames();
  }

  /** A host that strips its base and the signature segment is left with exactly the path that was signed. */
  lemma SignedUrlCarriesPath(base: string, preset: string, source: string, exp: Option<int>, mac: string -> string)
    requires '/' !in mac(ProcessingPath(preset, source, exp))
    ensures
      var path := ProcessingPath(preset, source, exp);
      var url := SignedImageUrl(base, preset, source, exp, mac);
      && TrimRight(base, '/') + "/" <= url
      && Split(url[|TrimRight(base, '/')| + 1..], '/') == [mac(path)] + Split(path[1..], '/')
  {
    PathIsRooted(preset, source, exp);
    Stripped(TrimRight(base, '/'), mac(ProcessingPath(preset, source, exp)), ProcessingPath(preset, source, exp));
  }

  lemma PathIsRooted(preset: string, source: string, exp: Option<int>)
    ensures ProcessingPath(preset, source, exp) != "" && ProcessingPath(preset, source, exp)[0] == '/'
  {
  }

  lemma Stripped(host: string, signature: string, path: string)
    requires path != "" && path[0] == '/' && '/' !in signature
    ensures
      var url := host + "/" + signature + path;
      host + "/" <= url && Split(url[|host| + 1..], '/') == [signature] + Split(path[1..], '/')
  {
    var url := host + "/" + signature + path;
    assert url[|host| + 1..] == signature + ['/'] + path[1..];
    SplitHead(signature, '/', path[1..]);
  }
}
