/** Routing keys on the default template. */
module Router {
  import opened Options
  import opened Text

  const TEMPLATE := "tenant:{tenant}:app:{app}:topic:{topic}"
  const TENANT := "{tenant}"
  const APP := "{app}"
  const TOPIC := "{topic}"

  function SanitizeKeyPart(s: string): string {
    ReplaceAll(s, ":", "_")
  }

  /** Three replacements one after the other: each also scans what the earlier ones inserted. */
  function BuildKey(tenantID: string, appID: string, topicID: string): string {
    var res := ReplaceAll(TEMPLATE, TENANT, SanitizeKeyPart(tenantID));
    var res := ReplaceAll(res, APP, SanitizeKeyPart(appID));
    ReplaceAll(res, TOPIC, topicID)
  }

  /** The key that the template describes. */
  function Key(t: string, a: string, p: string): string {
    "tenant" + ":" + (t + ":" + ("app" + ":" + (a + ":" + ("topic" + ":" + p))))
  }

  /** Reads a nonempty part that is free of colons; yields it and what follows it. */
  function TakePart(s: string): Option<(string, string)> {
    var n := FirstColon(s);
    if n == 0 then None else Some((s[..n], s[n..]))
  }

  function StripPrefix(s: string, prefix: string): Option<string> {
    if prefix <= s then Some(s[|prefix|..]) else None
  }

  /** The expression ^tenant:([^:]+):app:([^:]+):topic:(.+)$ as a direct parser; a dot matches
      every character but a line feed. */
  function ParseKey(key: string): Option<(string, string, string)> {
    match StripPrefix(key, "tenant:")
    case None => None
    case Some(s1) =>
      match TakePart(s1)
      case None => None
      case Some((t, s2)) =>
        match StripPrefix(s2, ":app:")
        case None => None
        case Some(s3) =>
          match TakePart(s3)
          case None => None
          case Some((a, s4)) =>
            match StripPrefix(s4, ":topic:")
            case None => None
            case Some(p) => if p == "" || '\n' in p then None else Some((t, a, p))
  }

  // ---- Sanitization ----

  /** Sanitization changes colons to underscores and nothing else. */
  lemma {:induction false} SanitizeMeans(s: string)
    ensures |SanitizeKeyPart(s)| == |s|
    ensures forall i :: 0 <= i < |s| ==> SanitizeKeyPart(s)[i] == if s[i] == ':' then '_' else s[i]
    ensures ':' !in SanitizeKeyPart(s)
  {
    if s == "" {
    } else {
      SanitizeMeans(s[1..]);
      assert SanitizeKeyPart(s) == [if s[0] == ':' then '_' else s[0]] + SanitizeKeyPart(s[1..]);
    }
  }

  /** Sanitization neither makes nor breaks a placeholder. */
  lemma SanitizeKeepsPlaceholders(s: string, pat: string)
    requires ':' !in pat && '_' !in pat
    ensures Has(SanitizeKeyPart(s), pat) <==> Has(s, pat)
  {
    SanitizeMeans(s);
    var san := SanitizeKeyPart(s);
    forall i: nat ensures Here(san, pat, i) <==> Here(s, pat, i) {
      if i + |pat| <= |s| {
        var sub, sub' := s[i..i + |pat|], san[i..i + |pat|];
        assert forall j :: 0 <= j < |pat| ==> sub[j] == s[i + j] && sub'[j] == san[i + j];
        assert forall j :: 0 <= j < |pat| ==> pat[j] != ':' && pat[j] != '_';
        if Here(san, pat, i) {
          assert forall j :: 0 <= j < |pat| ==> san[i + j] == pat[j];
        }
        if Here(s, pat, i) {
          assert forall j :: 0 <= j < |pat| ==> s[i + j] == pat[j];
        }
      }
    }
  }

  // ---- What BuildKey builds ----

  /** Parts joined by colons. */
  function Join(parts: seq<string>): string
    requires parts != []
  {
    if |parts| == 1 then parts[0] else parts[0] + ":" + Join(parts[1..])
  }

  function ReplaceEach(parts: seq<string>, pat: string, rep: string): seq<string>
    requires pat != ""
  {
    seq(|parts|, i requires 0 <= i < |parts| => ReplaceAll(parts[i], pat, rep))
  }

  lemma ReplaceEachTail(parts: seq<string>, pat: string, rep: string)
    requires parts != [] && pat != ""
    ensures ReplaceEach(parts, pat, rep)[0] == ReplaceAll(parts[0], pat, rep)
    ensures ReplaceEach(parts, pat, rep)[1..] == ReplaceEach(parts[1..], pat, rep)
  {
  }

  lemma {:induction false} ReplaceJoin(parts: seq<string>, pat: string, rep: string)
    requires parts != [] && pat != "" && ':' !in pat
    ensures ReplaceAll(Join(parts), pat, rep) == Join(ReplaceEach(parts, pat, rep))
    decreases |parts|
  {
    ReplaceEachTail(parts, pat, rep);
    if |parts| == 1 {
    } else {
      ReplaceAround(parts[0], ':', Join(parts[1..]), pat, rep);
      ReplaceJoin(parts[1..], pat, rep);
    }
  }

  lemma JoinCons(part: string, parts: seq<string>)
    requires parts != []
    ensures Join([part] + parts) == part + ":" + Join(parts)
  {
    assert ([part] + parts)[1..] == parts;
  }

  lemma JoinSix(t: string, a: string, p: string)
    ensures Join(["tenant", t, "app", a, "topic", p]) == Key(t, a, p)
  {
    JoinCons("topic", [p]);
    JoinCons(a, ["topic", p]);
    JoinCons("app", [a, "topic", p]);
    JoinCons(t, ["app", a, "topic", p]);
    JoinCons("tenant", [t, "app", a, "topic", p]);
  }

  /** Replacing a placeholder that is in none of the literal parts of a key. */
  lemma ReplaceInKey(t: string, a: string, p: string, pat: string, rep: string)
    requires pat in {TENANT, APP, TOPIC}
    ensures ReplaceAll(Key(t, a, p), pat, rep) ==
      Key(ReplaceAll(t, pat, rep), ReplaceAll(a, pat, rep), ReplaceAll(p, pat, rep))
  {
    var parts := ["tenant", t, "app", a, "topic", p];
    JoinSix(t, a, p);
    ReplaceJoin(parts, pat, rep);
    NoBrace("tenant", pat, rep);
    NoBrace("app", pat, rep);
    NoBrace("topic", pat, rep);
    assert ReplaceEach(parts, pat, rep) ==
      ["tenant", ReplaceAll(t, pat, rep), "app", ReplaceAll(a, pat, rep), "topic", ReplaceAll(p, pat, rep)];
    JoinSix(ReplaceAll(t, pat, rep), ReplaceAll(a, pat, rep), ReplaceAll(p, pat, rep));
  }

  lemma NoBrace(s: string, pat: string, rep: string)
    requires '{' !in s && pat != "" && pat[0] == '{'
    ensures ReplaceAll(s, pat, rep) == s
  {
  }

  /** A placeholder is replaced as a whole. */
  lemma ReplaceWhole(pat: string, rep: string)
    requires pat != ""
    ensures ReplaceAll(pat, pat, rep) == rep
  {
  }

  lemma TemplateIsKey()
    ensures TEMPLATE == Key(TENANT, APP, TOPIC)
  {
  }

  lemma FillTenant(template: string, t: string)
    requires template == Key(TENANT, APP, TOPIC)
    ensures ReplaceAll(template, TENANT, t) == Key(t, APP, TOPIC)
  {
    ReplaceInKey(TENANT, APP, TOPIC, TENANT, t);
    ReplaceWhole(TENANT, t);
    NotIn(APP, TENANT, t);
    NotIn(TOPIC, TENANT, t);
  }

  lemma FillApp(t: string, a: string)
    ensures ReplaceAll(Key(t, APP, TOPIC), APP, a) == Key(ReplaceAll(t, APP, a), a, TOPIC)
  {
    ReplaceInKey(t, APP, TOPIC, APP, a);
    ReplaceWhole(APP, a);
    NotIn(TOPIC, APP, a);
  }

  lemma FillTopic(t: string, a: string, p: string)
    ensures ReplaceAll(Key(t, a, TOPIC), TOPIC, p) == Key(ReplaceAll(t, TOPIC, p), ReplaceAll(a, TOPIC, p), p)
  {
    ReplaceInKey(t, a, TOPIC, TOPIC, p);
    ReplaceWhole(TOPIC, p);
  }

  /** For all values: the tenant part is scanned twice more, the app part once more. */
  lemma BuildKeyIs(tenantID: string, appID: string, topicID: string)
    ensures var t, a := SanitizeKeyPart(tenantID), SanitizeKeyPart(appID);
      BuildKey(tenantID, appID, topicID) ==
        Key(ReplaceAll(ReplaceAll(t, APP, a), TOPIC, topicID), ReplaceAll(a, TOPIC, topicID), topicID)
  {
    var t, a := SanitizeKeyPart(tenantID), SanitizeKeyPart(appID);
    TemplateIsKey();
    FillTenant(TEMPLATE, t);
    FillApp(t, a);
    FillTopic(ReplaceAll(t, APP, a), a, topicID);
  }

  /** No placeholder occurs in another. */
  lemma NotIn(s: string, pat: string, rep: string)
    requires s in {TENANT, APP, TOPIC} && pat in {TENANT, APP, TOPIC} && s != pat
    ensures ReplaceAll(s, pat, rep) == s
  {
    forall i: nat ensures !Here(s, pat, i) {
      if i + |pat| <= |s| {
        assert s[i..i + |pat|][0] == s[i];
        assert s[i..i + |pat|][|pat| - 1] == s[i + |pat| - 1];
      }
    }
    ReplaceAbsent(s, pat, rep);
  }

  /** The tenant contains neither of the other placeholders and the app does not contain the
      topic's; the app's placeholder in the tenant does no harm where it stands for itself. */
  ghost predicate Safe(tenantID: string, appID: string) {
    && !Has(appID, TOPIC)
    && !Has(tenantID, TOPIC)
    && (!Has(tenantID, APP) || appID == APP)
  }

  lemma SafeSanitized(tenantID: string, appID: string)
    ensures Safe(SanitizeKeyPart(tenantID), SanitizeKeyPart(appID)) <==> Safe(tenantID, appID)
  {
    SanitizeKeepsPlaceholders(tenantID, APP);
    SanitizeKeepsPlaceholders(tenantID, TOPIC);
    SanitizeKeepsPlaceholders(appID, TOPIC);
    SanitizeMeans(appID);
    if SanitizeKeyPart(appID) == APP {
      assert appID == APP;
    }
  }

  lemma SafeKey(tenantID: string, appID: string, topicID: string)
    requires Safe(tenantID, appID)
    ensures BuildKey(tenantID, appID, topicID) == Key(SanitizeKeyPart(tenantID), SanitizeKeyPart(appID), topicID)
  {
    var t, a := SanitizeKeyPart(tenantID), SanitizeKeyPart(appID);
    BuildKeyIs(tenantID, appID, topicID);
    SafeSanitized(tenantID, appID);
    ReplaceIdentity(t, APP, a);
    ReplaceAbsent(t, TOPIC, topicID);
    ReplaceAbsent(a, TOPIC, topicID);
  }

  /** BuildKey builds the key that the template describes, whatever the topic, exactly for the
      safe pairs of tenant and app. */
  lemma FaithfulExactlyWhenSafe(tenantID: string, appID: string)
    ensures (forall p :: BuildKey(tenantID, appID, p) == Key(SanitizeKeyPart(tenantID), SanitizeKeyPart(appID), p))
            <==> Safe(tenantID, appID)
  {
    if Safe(tenantID, appID) {
      forall p ensures BuildKey(tenantID, appID, p) == Key(SanitizeKeyPart(tenantID), SanitizeKeyPart(appID), p) {
        SafeKey(tenantID, appID, p);
      }
    } else if forall p :: BuildKey(tenantID, appID, p) == Key(SanitizeKeyPart(tenantID), SanitizeKeyPart(appID), p) {
      FaithfulAt(tenantID, appID, "");
      FaithfulAt(tenantID, appID, TOPIC);
      var t, a := SanitizeKeyPart(tenantID), SanitizeKeyPart(appID);
      ReplaceByItself(ReplaceAll(t, APP, a), TOPIC);
      ReplaceIdentity(t, APP, a);
      ReplaceIdentity(a, TOPIC, "");
      ReplaceIdentity(t, TOPIC, "");
      SafeSanitized(tenantID, appID);
    }
  }

  /** What a faithful key for a colon-free topic says about the two scanned parts. */
  lemma FaithfulAt(tenantID: string, appID: string, p: string)
    requires ':' !in p && BuildKey(tenantID, appID, p) == Key(SanitizeKeyPart(tenantID), SanitizeKeyPart(appID), p)
    ensures var t, a := SanitizeKeyPart(tenantID), SanitizeKeyPart(appID);
      ReplaceAll(ReplaceAll(t, APP, a), TOPIC, p) == t && ReplaceAll(a, TOPIC, p) == a
  {
    var t, a := SanitizeKeyPart(tenantID), SanitizeKeyPart(appID);
    BuildKeyIs(tenantID, appID, p);
    SanitizeMeans(tenantID);
    SanitizeMeans(appID);
    ReplaceKeepsOut(t, APP, a, ':');
    ReplaceKeepsOut(ReplaceAll(t, APP, a), TOPIC, p, ':');
    ReplaceKeepsOut(a, TOPIC, p, ':');
    KeyInjective(ReplaceAll(ReplaceAll(t, APP, a), TOPIC, p), ReplaceAll(a, TOPIC, p), p, t, a, p);
  }

  /** The key of plain names. */
  lemma PlainKey(t: string, a: string, p: string)
    requires '{' !in t && ':' !in t && '{' !in a && ':' !in a
    ensures BuildKey(t, a, p) == "tenant:" + (t + (":app:" + (a + (":topic:" + p))))
  {
    BraceFree(t);
    BraceFree(a);
    SafeKey(t, a, p);
    NoColonSanitize(t);
    NoColonSanitize(a);
    KeyInSteps(t, a, p);
  }

  lemma BraceFree(s: string)
    requires '{' !in s
    ensures !Has(s, APP) && !Has(s, TOPIC)
  {
    forall i: nat ensures !Here(s, APP, i) && !Here(s, TOPIC, i) {
      assert i + |APP| <= |s| ==> s[i..i + |APP|][0] == s[i];
      assert i + |TOPIC| <= |s| ==> s[i..i + |TOPIC|][0] == s[i];
    }
  }

  // ---- Injectivity ----

  lemma KeyInjective(t: string, a: string, p: string, t': string, a': string, p': string)
    requires ':' !in t && ':' !in a && ':' !in t' && ':' !in a'
    requires Key(t, a, p) == Key(t', a', p')
    ensures t == t' && a == a' && p == p'
  {
    var q, q' := "topic" + ":" + p, "topic" + ":" + p';
    var r, r' := "app" + ":" + (a + ":" + q), "app" + ":" + (a' + ":" + q');
    SplitAtFirst("tenant", t + ":" + r, "tenant", t' + ":" + r', ':');
    SplitAtFirst(t, r, t', r', ':');
    SplitAtFirst("app", a + ":" + q, "app", a' + ":" + q', ':');
    SplitAtFirst(a, q, a', q', ':');
    SplitAtFirst("topic", p, "topic", p', ':');
  }

  /** Keys of safe pairs are equal exactly when tenant and app agree up to sanitization and the
      topics are equal: empty parts and colons in the topic included. */
  lemma BuildKeyInjective(t: string, a: string, p: string, t': string, a': string, p': string)
    requires Safe(t, a) && Safe(t', a')
    ensures BuildKey(t, a, p) == BuildKey(t', a', p') <==>
      SanitizeKeyPart(t) == SanitizeKeyPart(t') && SanitizeKeyPart(a) == SanitizeKeyPart(a') && p == p'
  {
    SafeKey(t, a, p);
    SafeKey(t', a', p');
    SanitizeMeans(t);
    SanitizeMeans(a);
    SanitizeMeans(t');
    SanitizeMeans(a');
    if BuildKey(t, a, p) == BuildKey(t', a', p') {
      KeyInjective(SanitizeKeyPart(t), SanitizeKeyPart(a), p, SanitizeKeyPart(t'), SanitizeKeyPart(a'), p');
    }
  }

  /** Without the condition tenants collide: the tenant "{app}" gets the keys of the tenant
      that is named like the app. */
  lemma PlaceholderTenantCollides(a: string, p: string)
    requires !Has(a, APP)
    ensures BuildKey(APP, a, p) == BuildKey(a, a, p)
  {
    var san := SanitizeKeyPart(a);
    BuildKeyIs(APP, a, p);
    BuildKeyIs(a, a, p);
    NoColonSanitize(APP);
    ReplaceWhole(APP, san);
    SanitizeKeepsPlaceholders(a, APP);
    ReplaceAbsent(san, APP, san);
  }

  lemma NoColonSanitize(s: string)
    requires ':' !in s
    ensures SanitizeKeyPart(s) == s
  {
    SanitizeMeans(s);
  }

  // ---- Parsing ----

  /** The keys that the expression matches, with their parts. */
  ghost predicate Matches(key: string, t: string, a: string, p: string) {
    && key == Key(t, a, p)
    && t != "" && ':' !in t
    && a != "" && ':' !in a
    && p != "" && '\n' !in p
  }

  lemma TakePartMeans(s: string, part: string, rest: string)
    ensures TakePart(s) == Some((part, rest)) <==>
      s == part + rest && part != "" && ':' !in part && (rest != "" ==> rest[0] == ':')
  {
    var n := FirstColon(s);
    assert s == s[..n] + s[n..];
    if s == part + rest && part != "" && ':' !in part && (rest != "" ==> rest[0] == ':') {
      assert part == s[..|part|] && rest == s[|part|..];
      assert forall i :: 0 <= i < |part| ==> s[i] in part;
      assert forall i :: 0 <= i < n ==> s[i] in s[..n];
      assert n == |part|;
    }
  }

  lemma StripPrefixMeans(s: string, prefix: string, rest: string)
    ensures StripPrefix(s, prefix) == Some(rest) <==> s == prefix + rest
  {
  }

  /** The parser accepts exactly the keys that the expression matches, and yields their parts. */
  lemma ParseKeyMeans(key: string, t: string, a: string, p: string)
    ensures ParseKey(key) == Some((t, a, p)) <==> Matches(key, t, a, p)
  {
    if Matches(key, t, a, p) {
      ParseAccepts(t, a, p);
    }
    if ParseKey(key) == Some((t, a, p)) {
      ParseYields(key, t, a, p);
    }
  }

  lemma ParseYields(key: string, t: string, a: string, p: string)
    requires ParseKey(key) == Some((t, a, p))
    ensures Matches(key, t, a, p)
  {
    var s1 := StripPrefix(key, "tenant:").value;
    var s2 := TakePart(s1).value.1;
    var s3 := StripPrefix(s2, ":app:").value;
    var s4 := TakePart(s3).value.1;
    StripPrefixMeans(key, "tenant:", s1);
    TakePartMeans(s1, t, s2);
    StripPrefixMeans(s2, ":app:", s3);
    TakePartMeans(s3, a, s4);
    StripPrefixMeans(s4, ":topic:", p);
    KeyInSteps(t, a, p);
  }

  lemma KeyInSteps(t: string, a: string, p: string)
    ensures Key(t, a, p) == "tenant:" + (t + (":app:" + (a + (":topic:" + p))))
  {
    var q := "topic" + ":" + p;
    var r := "app" + ":" + (a + ":" + q);
    assert a + ":" + q == a + (":topic:" + p);
    assert t + ":" + r == t + (":app:" + (a + ":" + q));
    assert "tenant" + ":" + (t + ":" + r) == "tenant:" + (t + ":" + r);
  }

  lemma ParseAccepts(t: string, a: string, p: string)
    requires Matches(Key(t, a, p), t, a, p)
    ensures ParseKey(Key(t, a, p)) == Some((t, a, p))
  {
    var s4 := ":topic:" + p;
    var s3 := a + s4;
    var s2 := ":app:" + s3;
    var s1 := t + s2;
    KeyInSteps(t, a, p);
    StripPrefixMeans("tenant:" + s1, "tenant:", s1);
    TakePartMeans(s1, t, s2);
    StripPrefixMeans(s2, ":app:", s3);
    TakePartMeans(s3, a, s4);
    StripPrefixMeans(s4, ":topic:", p);
  }

  /** A built key parses back to its sanitized parts exactly when no part is empty and the
      topic has no line feed. */
  lemma ParseBuilt(tenantID: string, appID: string, topicID: string)
    requires Safe(tenantID, appID)
    ensures ParseKey(BuildKey(tenantID, appID, topicID)) ==
            Some((SanitizeKeyPart(tenantID), SanitizeKeyPart(appID), topicID))
            <==> tenantID != "" && appID != "" && topicID != "" && '\n' !in topicID
  {
    SafeKey(tenantID, appID, topicID);
    SanitizeMeans(tenantID);
    SanitizeMeans(appID);
    ParseKeyMeans(BuildKey(tenantID, appID, topicID), SanitizeKeyPart(tenantID), SanitizeKeyPart(appID), topicID);
  }

  /** A key that parses into a safe pair is rebuilt from its parts. */
  lemma BuildParsed(key: string, t: string, a: string, p: string)
    requires ParseKey(key) == Some((t, a, p)) && Safe(t, a)
    ensures BuildKey(t, a, p) == key
  {
    ParseKeyMeans(key, t, a, p);
    SafeKey(t, a, p);
    NoColonSanitize(t);
    NoColonSanitize(a);
  }
}
