/**
 * What the container loop records: one translated fragment per decoded
 * container, nothing for a container whose labels do not decode, and no
 * configuration at all when some router panics.
 */
module ContainerProperties {
  import opened Dynamic
  import opened Podman
  import opened Translate

  /** The identifiers of the containers whose labels decode. */
  function DecodedIds(cs: seq<Container>, decode: Labels -> Result<Configuration, string>): set<string>
  {
    set i | 0 <= i < |cs| && decode(cs[i].labels).Ok? :: cs[i].id
  }

  /** Container `i` decodes, and translating its fragment panics. */
  predicate FragmentFails(cs: seq<Container>, schedule: seq<seq<string>>,
                          decode: Labels -> Result<Configuration, string>, ip: string, i: int)
    requires WellScheduled(cs, schedule, decode)
  {
    0 <= i < |cs| && decode(cs[i].labels).Ok? &&
    TranslateFragment(decode(cs[i].labels).value, schedule[i], cs[i], ip).Err?
  }

  lemma DecodedIdsCons(cs: seq<Container>, decode: Labels -> Result<Configuration, string>)
    requires |cs| > 0
    ensures DecodedIds(cs, decode) ==
            (if decode(cs[0].labels).Ok? then {cs[0].id} else {}) + DecodedIds(cs[1..], decode)
  {
  }

  lemma WellScheduledTail(cs: seq<Container>, schedule: seq<seq<string>>,
                          decode: Labels -> Result<Configuration, string>)
    requires |cs| > 0 && WellScheduled(cs, schedule, decode)
    ensures WellScheduled(cs[1..], schedule[1..], decode)
  {
  }

  /**
   * When the loop completes, the recorded identifiers are the ones recorded
   * before plus exactly those of the containers whose labels decode.
   */
  lemma {:induction false} RecordedIds(configs: map<string, Configuration>, cs: seq<Container>,
                                       schedule: seq<seq<string>>,
                                       decode: Labels -> Result<Configuration, string>, ip: string)
    requires WellScheduled(cs, schedule, decode)
    ensures var r := TranslateContainers(configs, cs, schedule, decode, ip);
            r.Ok? ==> r.value.Keys == configs.Keys + DecodedIds(cs, decode)
    decreases |cs|
  {
    if cs != [] {
      WellScheduledTail(cs, schedule, decode);
      DecodedIdsCons(cs, decode);
      var c := cs[0];
      match decode(c.labels)
      case Err(_) =>
        RecordedIds(configs, cs[1..], schedule[1..], decode, ip);
      case Ok(config) =>
        match TranslateFragment(config, schedule[0], c, ip)
        case Err(_) =>
        case Ok(translated) =>
          RecordedIds(configs[c.id := translated], cs[1..], schedule[1..], decode, ip);
    }
  }

  /** Entries recorded earlier survive unless a decoded container has the same identifier. */
  lemma {:induction false} RecordedKept(configs: map<string, Configuration>, cs: seq<Container>,
                                        schedule: seq<seq<string>>,
                                        decode: Labels -> Result<Configuration, string>, ip: string)
    requires WellScheduled(cs, schedule, decode)
    ensures var r := TranslateContainers(configs, cs, schedule, decode, ip);
            r.Ok? ==> forall id :: id in configs && id !in DecodedIds(cs, decode) ==>
                        id in r.value && r.value[id] == configs[id]
    decreases |cs|
  {
    if cs != [] {
      WellScheduledTail(cs, schedule, decode);
      DecodedIdsCons(cs, decode);
      var c := cs[0];
      match decode(c.labels)
      case Err(_) =>
        RecordedKept(configs, cs[1..], schedule[1..], decode, ip);
      case Ok(config) =>
        match TranslateFragment(config, schedule[0], c, ip)
        case Err(_) =>
        case Ok(translated) =>
          RecordedKept(configs[c.id := translated], cs[1..], schedule[1..], decode, ip);
    }
  }

  /**
   * A run yields no configuration exactly when the fragment of some decoded
   * container panics; a container whose labels do not decode never stops
   * the loop.
   */
  lemma {:induction false} ContainersFailIff(configs: map<string, Configuration>, cs: seq<Container>,
                                             schedule: seq<seq<string>>,
                                             decode: Labels -> Result<Configuration, string>, ip: string)
    requires WellScheduled(cs, schedule, decode)
    ensures TranslateContainers(configs, cs, schedule, decode, ip).Err? <==>
            exists i :: FragmentFails(cs, schedule, decode, ip, i)
    decreases |cs|
  {
    if cs != [] {
      WellScheduledTail(cs, schedule, decode);
      var rest, later := cs[1..], schedule[1..];
      var c := cs[0];
      var d := decode(c.labels);
      if d.Ok? && TranslateFragment(d.value, schedule[0], c, ip).Err? {
        assert FragmentFails(cs, schedule, decode, ip, 0);
      } else {
        var acc := if d.Ok? then configs[c.id := TranslateFragment(d.value, schedule[0], c, ip).value] else configs;
        assert TranslateContainers(configs, cs, schedule, decode, ip)
            == TranslateContainers(acc, rest, later, decode, ip);
        ContainersFailIff(acc, rest, later, decode, ip);
        assert !FragmentFails(cs, schedule, decode, ip, 0);
        if exists i :: FragmentFails(cs, schedule, decode, ip, i) {
          var i :| FragmentFails(cs, schedule, decode, ip, i);
          assert rest[i - 1] == cs[i] && later[i - 1] == schedule[i];
          assert FragmentFails(rest, later, decode, ip, i - 1);
        }
        if exists i :: FragmentFails(rest, later, decode, ip, i) {
          var i :| FragmentFails(rest, later, decode, ip, i);
          assert rest[i] == cs[i + 1] && later[i] == schedule[i + 1];
          assert FragmentFails(cs, schedule, decode, ip, i + 1);
        }
      }
    }
  }

  /**
   * With distinct container identifiers, every container whose labels
   * decode is recorded under its identifier with its translated fragment,
   * and a container whose labels do not decode adds no entry.
   */
  lemma {:induction false} RecordedFragments(configs: map<string, Configuration>, cs: seq<Container>,
                                             schedule: seq<seq<string>>,
                                             decode: Labels -> Result<Configuration, string>, ip: string)
    requires WellScheduled(cs, schedule, decode)
    requires forall i, j :: 0 <= i < j < |cs| ==> cs[i].id != cs[j].id
    ensures var r := TranslateContainers(configs, cs, schedule, decode, ip);
            r.Ok? ==> forall i :: 0 <= i < |cs| ==>
              (decode(cs[i].labels).Ok? ==>
                 cs[i].id in r.value &&
                 TranslateFragment(decode(cs[i].labels).value, schedule[i], cs[i], ip) == Ok(r.value[cs[i].id])) &&
              (decode(cs[i].labels).Err? && cs[i].id !in configs ==> cs[i].id !in r.value)
    decreases |cs|
  {
    var r := TranslateContainers(configs, cs, schedule, decode, ip);
    if cs != [] && r.Ok? {
      WellScheduledTail(cs, schedule, decode);
      var rest, later := cs[1..], schedule[1..];
      forall i, j | 0 <= i < j < |rest| ensures rest[i].id != rest[j].id {
        assert rest[i] == cs[i + 1] && rest[j] == cs[j + 1];
      }
      var c := cs[0];
      var d := decode(c.labels);
      var acc := if d.Ok? then configs[c.id := TranslateFragment(d.value, schedule[0], c, ip).value] else configs;
      assert r == TranslateContainers(acc, rest, later, decode, ip);
      RecordedFragments(acc, rest, later, decode, ip);
      RecordedKept(acc, rest, later, decode, ip);
      RecordedIds(configs, cs, schedule, decode, ip);
      assert c.id !in DecodedIds(rest, decode);
      forall i | 0 <= i < |cs|
        ensures decode(cs[i].labels).Ok? ==>
                  cs[i].id in r.value &&
                  TranslateFragment(decode(cs[i].labels).value, schedule[i], cs[i], ip) == Ok(r.value[cs[i].id])
        ensures decode(cs[i].labels).Err? && cs[i].id !in configs ==> cs[i].id !in r.value
      {
        if i == 0 {
          if d.Err? && c.id !in configs {
            assert c.id !in DecodedIds(cs, decode);
          }
        } else {
          assert rest[i - 1] == cs[i] && later[i - 1] == schedule[i];
        }
      }
    }
  }
}
