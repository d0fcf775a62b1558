// Event topics (edge-agent/topics.go) and what MQTT 3.1.1 allows as a topic name.
module Topics {
  import opened Utf8

  // The namespaced layout is chosen when an organisation or a site is configured.
  datatype Layout = Flat | Namespaced(org: string, site: string)

  function Prefix(l: Layout): string {
    match l
    case Flat => "edgesense/events/"
    case Namespaced(org, site) => "es/" + org + "/" + site + "/"
  }

  function Suffix(l: Layout): string {
    if l.Flat? then "" else "/events"
  }

  function EventTopic(l: Layout, machine: string): string {
    Prefix(l) + machine + Suffix(l)
  }

  const TOPIC_LIMIT := 65535

  // No wildcard (section 3.3.2.1 of MQTT 3.1.1), no U+0000 and no more than 65,535
  // bytes (section 1.5.3), at least one character (section 4.7.3).
  predicate IsTopicChar(c: char) {
    c != '+' && c != '#' && c != '\0'
  }

  predicate TopicChars(s: string) {
    forall i :: 0 <= i < |s| ==> IsTopicChar(s[i])
  }

  predicate LegalTopic(topic: string) {
    topic != "" && TopicChars(topic) && Bytes(topic) <= TOPIC_LIMIT
  }

  lemma CharsOf(a: string, b: string, c: string)
    ensures TopicChars(a + b + c) <==> TopicChars(a) && TopicChars(b) && TopicChars(c)
  {
    var s := a + b + c;
    if TopicChars(s) {
      forall i | 0 <= i < |a| ensures IsTopicChar(a[i]) {
        assert s[i] == a[i];
      }
      forall i | 0 <= i < |b| ensures IsTopicChar(b[i]) {
        assert s[|a| + i] == b[i];
      }
      forall i | 0 <= i < |c| ensures IsTopicChar(c[i]) {
        assert s[|a| + |b| + i] == c[i];
      }
    }
  }

  // The agent inserts the machine id as it stands, so the topic is legal exactly when
  // the id and the layout's own text are, and there is room for all of it. An id may be
  // empty and may hold slashes.
  lemma EventTopicIff(l: Layout, machine: string)
    ensures LegalTopic(EventTopic(l, machine)) <==>
      && TopicChars(Prefix(l)) && TopicChars(machine)
      && Bytes(Prefix(l)) + Bytes(machine) + Bytes(Suffix(l)) <= TOPIC_LIMIT
  {
    CharsOf(Prefix(l), machine, Suffix(l));
    BytesAppend(Prefix(l) + machine, Suffix(l));
    BytesAppend(Prefix(l), machine);
  }

  lemma EventTopicText(org: string, site: string, machine: string)
    ensures EventTopic(Flat, machine) == "edgesense/events/" + machine
    ensures EventTopic(Namespaced(org, site), machine) == "es/" + org + "/" + site + "/" + machine + "/events"
  {
  }

  lemma FlatPrefix(prefix: string)
    requires prefix == Prefix(Flat)
    ensures TopicChars(prefix) && Bytes(prefix) == 17
  {
    NarrowBytes(prefix);
  }

  lemma {:induction false} NarrowBytes(s: string)
    requires forall i :: 0 <= i < |s| ==> s[i] as int < 0x80
    ensures Bytes(s) == |s|
  {
    if s != "" {
      NarrowBytes(s[1..]);
    }
  }

  // ----- the machine of a sensor topic ------------------------------------------------------

  // strings.Split at slashes.
  function Levels(topic: string): (levels: seq<string>)
    ensures levels != []
  {
    if topic == "" then [""]
    else
      var more := Levels(topic[1..]);
      if topic[0] == '/' then [""] + more else [[topic[0]] + more[0]] + more[1..]
  }

  // The fourth level of a namespaced topic, the last of any other.
  function MachineId(topic: string): string {
    var levels := Levels(topic);
    if levels[0] == "es" && |levels| >= 4 then levels[3] else levels[|levels| - 1]
  }

  lemma {:induction false} LevelsSlash(level: string, rest: string)
    requires '/' !in level
    ensures Levels(level + "/" + rest) == [level] + Levels(rest)
  {
    var topic := level + "/" + rest;
    if level == "" {
      assert topic[0] == '/' && topic[1..] == rest;
    } else {
      assert topic[0] == level[0] && level[0] in level;
      assert topic[1..] == level[1..] + "/" + rest;
      LevelsSlash(level[1..], rest);
      assert [level[0]] + level[1..] == level;
    }
  }

  // No level holds a slash, and they are no longer than the topic.
  lemma {:induction false} LevelsPlain(topic: string)
    ensures forall i :: 0 <= i < |Levels(topic)| ==> '/' !in Levels(topic)[i]
  {
    if topic != "" {
      LevelsPlain(topic[1..]);
    }
  }

  lemma {:induction false} OneLevel(topic: string)
    requires '/' !in topic
    ensures Levels(topic) == [topic]
  {
    if topic != "" {
      OneLevel(topic[1..]);
      assert topic[0] in topic && [topic[0]] + topic[1..] == topic;
    }
  }

  lemma SensorTopic(machine: string)
    ensures "edgesense" + "/" + ("sensors" + "/" + machine) == "edgesense/sensors/" + machine
  {
  }

  lemma FlatEventTopic(machine: string)
    ensures "edgesense" + "/" + ("events" + "/" + machine) == EventTopic(Flat, machine)
  {
  }

  // In the flat layout the machine is found exactly when its id holds no slash.
  lemma FlatMachineIff(machine: string)
    ensures MachineId("edgesense/sensors/" + machine) == machine <==> '/' !in machine
    ensures MachineId(EventTopic(Flat, machine)) == machine <==> '/' !in machine
  {
    LastLevel("edgesense", "sensors", machine);
    SensorTopic(machine);
    LastLevel("edgesense", "events", machine);
    FlatEventTopic(machine);
  }

  lemma LastLevel(first: string, second: string, machine: string)
    requires '/' !in first && '/' !in second && first != "es"
    ensures MachineId(first + "/" + (second + "/" + machine)) == machine <==> '/' !in machine
  {
    LevelsSlash(first, second + "/" + machine);
    LevelsSlash(second, machine);
    LevelsPlain(machine);
    if '/' !in machine {
      OneLevel(machine);
    }
  }

  // In the namespaced layout too, whatever follows, for an organisation and a site that
  // are one level each.
  lemma NamespacedMachineIff(org: string, site: string, machine: string, rest: string)
    requires '/' !in org && '/' !in site
    ensures MachineId("es" + "/" + (org + "/" + (site + "/" + (machine + "/" + rest)))) == machine <==> '/' !in machine
  {
    LevelsSlash("es", org + "/" + (site + "/" + (machine + "/" + rest)));
    LevelsSlash(org, site + "/" + (machine + "/" + rest));
    LevelsSlash(site, machine + "/" + rest);
    LevelsPlain(machine + "/" + rest);
    if '/' !in machine {
      LevelsSlash(machine, rest);
    }
  }
}
