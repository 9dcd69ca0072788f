/** The gate: a model's answer about every card on the tray, read tolerantly, and
    the verdicts recorded (src/agentchatme/gate.py:117-160, 262-362, 404-571,
    654-670). It starts from the items of the answer, already parsed. */
module Gate {
  import opened Wrappers
  import opened Text

  datatype Decision = Reply | Dismiss | Defer

  /** A JSON value, as far as the gate looks at it. */
  datatype Field = Str(s: string) | NotText

  datatype Item = Entry(id: Field, decision: Field, category: Field) | Junk

  datatype Verdict = Verdict(id: string, decision: Decision, category: Option<string>)

  // ----- Reading the answer -----

  const REPLY_TOKENS: set<string> := {"reply", "respond", "answer", "yes", "true"}
  const DISMISS_TOKENS: set<string> := {
    "dismiss", "dismissed", "no_reply", "no-reply", "noreply", "silent", "silence", "skip", "ignore", "no", "false"
  }
  const DEFER_TOKENS: set<string> := {"defer", "deferred", "later", "wait", "postpone"}

  function NormalizeDecision(value: Field): Option<Decision> {
    if value.NotText? then None else Classify(Joined(Lower(Strip(value.s))))
  }

  function Classify(token: string): Option<Decision> {
    if token in REPLY_TOKENS then Some(Reply)
    else if token in DISMISS_TOKENS then Some(Dismiss)
    else if token in DEFER_TOKENS then Some(Defer)
    else None
  }

  function NormalizeCategory(value: Field, allowed: set<string>): Option<string> {
    if value.NotText? then None else
      var token := Lower(Strip(value.s));
      if token in allowed then Some(token) else None
  }

  /** The verdict an item stands for by itself, if any. */
  function Usable(item: Item, known: set<string>, allowed: set<string>): Option<Verdict> {
    if item.Junk? || item.id.NotText? || item.id.s !in known || NormalizeDecision(item.decision).None? then None
    else Some(Verdict(item.id.s, NormalizeDecision(item.decision).value, NormalizeCategory(item.category, allowed)))
  }

  /** What each item stands for, in answer order. */
  function Usables(items: seq<Item>, known: set<string>, allowed: set<string>): (r: seq<Option<Verdict>>)
    ensures |r| == |items| && forall i :: 0 <= i < |items| ==> r[i] == Usable(items[i], known, allowed)
  {
    seq(|items|, i requires 0 <= i < |items| => Usable(items[i], known, allowed))
  }

  /** Usable, and nothing usable before it is about the same card. */
  predicate FirstOfItsCard(us: seq<Option<Verdict>>, j: nat)
    requires j < |us|
  {
    us[j].Some? && forall i :: 0 <= i < j && us[i].Some? ==> us[i].value.id != us[j].value.id
  }

  /** The first usable item of each card among the first n, in answer order. */
  function FirstUsable(us: seq<Option<Verdict>>, n: nat): seq<Verdict>
    requires n <= |us|
  {
    if n == 0 then []
    else if FirstOfItsCard(us, n - 1) then FirstUsable(us, n - 1) + [us[n - 1].value]
    else FirstUsable(us, n - 1)
  }

  function Parsed(items: seq<Item>, known: set<string>, categories: seq<string>): seq<Verdict> {
    FirstUsable(Usables(items, known, Allowed(categories)), |items|)
  }

  function Allowed(categories: seq<string>): set<string> {
    set c | c in categories :: Lower(c)
  }

  /** The cards the first n items have a usable verdict for. */
  function Seen(us: seq<Option<Verdict>>, n: nat): set<string>
    requires n <= |us|
  {
    if n == 0 then {} else Seen(us, n - 1) + About(us[n - 1])
  }

  function About(u: Option<Verdict>): set<string> {
    if u.Some? then {u.value.id} else {}
  }

  lemma {:induction false} SeenIff(us: seq<Option<Verdict>>, n: nat, id: string)
    requires n <= |us|
    ensures id in Seen(us, n) <==> exists i :: 0 <= i < n && us[i].Some? && us[i].value.id == id
  {
    if n > 0 { SeenIff(us, n - 1, id); }
  }

  lemma FirstIff(us: seq<Option<Verdict>>, j: nat)
    requires j < |us|
    ensures FirstOfItsCard(us, j) <==> us[j].Some? && us[j].value.id !in Seen(us, j)
  {
    if us[j].Some? { SeenIff(us, j, us[j].value.id); }
  }

  method ParseVerdicts(items: seq<Item>, known: set<string>, categories: seq<string>) returns (out: seq<Verdict>)
    ensures out == Parsed(items, known, categories)
  {
    var allowed := Allowed(categories);
    ghost var us := Usables(items, known, allowed);
    var seen: set<string> := {};
    out := [];
    for n := 0 to |items|
      invariant seen == Seen(us, n)
      invariant out == FirstUsable(us, n)
    {
      FirstIff(us, n);
      match items[n]
      case Junk =>
      case Entry(id, value, category) =>
        if id.NotText? || id.s !in known || id.s in seen { continue; }
        var decision := NormalizeDecision(value);
        if decision.None? { continue; }
        seen := seen + {id.s};
        out := out + [Verdict(id.s, decision.value, NormalizeCategory(category, allowed))];
    }
  }

  // ----- What the verdicts are -----

  function Ids(vs: seq<Verdict>): (r: seq<string>)
    ensures |r| == |vs| && forall i :: 0 <= i < |vs| ==> r[i] == vs[i].id
  {
    seq(|vs|, i requires 0 <= i < |vs| => vs[i].id)
  }

  lemma IdsMore(vs: seq<Verdict>, v: Verdict)
    ensures Ids(vs + [v]) == Ids(vs) + [v.id]
    ensures Elements(Ids(vs + [v])) == Elements(Ids(vs)) + {v.id}
    ensures Distinct(Ids(vs)) && v.id !in Elements(Ids(vs)) ==> Distinct(Ids(vs + [v]))
  {
    assert Ids(vs + [v]) == Ids(vs) + [v.id];
  }

  lemma {:induction false} OneEach(us: seq<Option<Verdict>>, n: nat)
    requires n <= |us|
    ensures var ids := Ids(FirstUsable(us, n)); Distinct(ids) && Elements(ids) == Seen(us, n)
  {
    if n > 0 {
      OneEach(us, n - 1);
      FirstIff(us, n - 1);
      if FirstOfItsCard(us, n - 1) { IdsMore(FirstUsable(us, n - 1), us[n - 1].value); }
    }
  }

  /** One verdict a card, for just the known cards some item is usable for. */
  lemma OnePerCard(items: seq<Item>, known: set<string>, categories: seq<string>, id: string)
    ensures var ids := Ids(Parsed(items, known, categories));
      && Distinct(ids)
      && (id in ids <==> exists i :: 0 <= i < |items| && Usable(items[i], known, Allowed(categories)).Some?
                                     && Usable(items[i], known, Allowed(categories)).value.id == id)
      && (id in ids ==> id in known)
  {
    var us := Usables(items, known, Allowed(categories));
    OneEach(us, |us|);
    SeenIff(us, |us|, id);
    assert id in Ids(FirstUsable(us, |us|)) <==> id in Seen(us, |us|);
  }

  function Spelled(decision: Decision): string {
    match decision
    case Reply => "reply"
    case Dismiss => "dismiss"
    case Defer => "defer"
  }

  /** A verdict as an item of an answer. */
  function AsItem(v: Verdict): Item {
    Entry(Str(v.id), Str(Spelled(v.decision)), if v.category.Some? then Str(v.category.value) else NotText)
  }

  function AsItems(vs: seq<Verdict>): (r: seq<Item>)
    ensures |r| == |vs| && forall i :: 0 <= i < |vs| ==> r[i] == AsItem(vs[i])
  {
    seq(|vs|, i requires 0 <= i < |vs| => AsItem(vs[i]))
  }

  lemma SpelledNormal(decision: Decision)
    ensures NormalizeDecision(Str(Spelled(decision))) == Some(decision)
  {
    PlainWordStays(Spelled(decision));
    SpelledClassified(decision);
  }

  lemma SpelledClassified(decision: Decision)
    ensures Classify(Spelled(decision)) == Some(decision)
  {
  }

  // ----- What a decision may look like -----

  /** The decisions of the accepted words. */
  function Meaning(word: string): Option<Decision> {
    if word in ["reply", "respond", "answer", "yes", "true"] then Some(Reply)
    else if word in ["dismiss", "dismissed", "no_reply", "no-reply", "noreply", "silent", "silence", "skip",
                     "ignore", "no", "false"] then Some(Dismiss)
    else if word in ["defer", "deferred", "later", "wait", "postpone"] then Some(Defer)
    else None
  }

  lemma ClassifyMeans(word: string)
    ensures Classify(word) == Meaning(word)
  {
  }

  /** One word in any letter case, with any space around it, is read as what it means;
      as nothing if it is no accepted word. */
  lemma DecisionRead(lead: string, w: string, trail: string, word: string)
    requires Blank(lead) && Blank(trail) && PlainWord(word) && Spells(w, word)
    ensures NormalizeDecision(Str(lead + w + trail)) == Meaning(word)
  {
    SpelledSolid(w, word);
    Stripped(lead, w, trail);
    LowerSpells(w, word);
    PlainWordStays(word);
    ClassifyMeans(word);
  }

  /** Two words, spelled however and apart by any space, are read as joined by one
      underscore: "No  Reply" is "no_reply". */
  lemma TwoWordsRead(lead: string, v: string, gap: string, w: string, trail: string, first: string, second: string)
    requires Blank(lead) && Blank(trail) && Blank(gap) && gap != []
    requires PlainWord(first) && PlainWord(second) && Spells(v, first) && Spells(w, second)
    ensures NormalizeDecision(Str(lead + (v + gap + w) + trail)) == Meaning(first + "_" + second)
  {
    SpelledSolid(v, first);
    SpelledSolid(w, second);
    Stripped(lead, v + gap + w, trail);
    LowerTwo(v, gap, w, first, second);
    TwoWords(first, gap, second);
    ClassifyMeans(first + "_" + second);
  }

  lemma LowerTwo(v: string, gap: string, w: string, first: string, second: string)
    requires PlainWord(first) && PlainWord(second) && Spells(v, first) && Spells(w, second) && Blank(gap)
    ensures Lower(v + gap + w) == first + gap + second
  {
    LowerSpells(v, first);
    LowerSpells(w, second);
    forall i | 0 <= i < |gap| ensures LowerChar(gap[i]) == gap[i] { assert IsSpace(gap[i]); }
    assert Lower(gap) == gap;
    assert Lower(v + gap + w) == Lower(v) + Lower(gap) + Lower(w);
  }

  /** A category is read in any letter case, with any space around it, if the tray
      allows it in whatever case; nothing else is. */
  lemma CategoryRead(lead: string, w: string, trail: string, word: string, categories: seq<string>)
    requires Blank(lead) && Blank(trail) && PlainWord(word) && Spells(w, word)
    ensures NormalizeCategory(Str(lead + w + trail), Allowed(categories)) ==
            if exists c :: c in categories && Spells(c, word) then Some(word) else None
  {
    SpelledSolid(w, word);
    Stripped(lead, w, trail);
    LowerSpells(w, word);
    forall c | c in categories ensures Lower(c) == word <==> Spells(c, word) { LowerSpells(c, word); }
  }

  predicate ReadsBack(v: Verdict, known: set<string>, allowed: set<string>) {
    Usable(AsItem(v), known, allowed) == Some(v)
  }

  /** Read back, the verdict of a usable item is the same verdict. */
  lemma {:induction false} ReadBack(item: Item, known: set<string>, allowed: set<string>)
    requires Usable(item, known, allowed).Some?
    ensures ReadsBack(Usable(item, known, allowed).value, known, allowed)
  {
    var v := Usable(item, known, allowed).value;
    SpelledNormal(v.decision);
    if v.category.Some? { StripLowerOnce(item.category.s); }
  }

  ghost predicate Readable(vs: seq<Verdict>, known: set<string>, allowed: set<string>) {
    forall i :: 0 <= i < |vs| ==> ReadsBack(vs[i], known, allowed)
  }

  lemma {:induction false} FromItems(us: seq<Option<Verdict>>, n: nat, v: Verdict)
    requires n <= |us| && v in FirstUsable(us, n)
    ensures exists i :: 0 <= i < n && us[i] == Some(v)
  {
    if n > 0 && v in FirstUsable(us, n - 1) { FromItems(us, n - 1, v); }
  }

  lemma ParsedReadable(items: seq<Item>, known: set<string>, allowed: set<string>)
    ensures Readable(FirstUsable(Usables(items, known, allowed), |items|), known, allowed)
  {
    var us := Usables(items, known, allowed);
    forall v | v in FirstUsable(us, |us|) ensures ReadsBack(v, known, allowed) {
      FromItems(us, |us|, v);
      var i :| 0 <= i < |us| && us[i] == Some(v);
      ReadBack(items[i], known, allowed);
    }
  }

  /** Verdicts about different cards are all first of their card. */
  lemma {:induction false} AllKept(us: seq<Option<Verdict>>, vs: seq<Verdict>, n: nat)
    requires Distinct(Ids(vs)) && n <= |vs| == |us|
    requires forall i :: 0 <= i < |vs| ==> us[i] == Some(vs[i])
    ensures FirstUsable(us, n) == vs[..n]
  {
    if n > 0 {
      AllKept(us, vs, n - 1);
      forall i | 0 <= i < n - 1 ensures us[i].value.id != us[n - 1].value.id { assert Ids(vs)[i] != Ids(vs)[n - 1]; }
    }
  }

  /** Parsing its own verdicts changes nothing. */
  lemma ParseIdempotent(items: seq<Item>, known: set<string>, categories: seq<string>)
    ensures var vs := Parsed(items, known, categories); Parsed(AsItems(vs), known, categories) == vs
  {
    var vs := Parsed(items, known, categories);
    var us := Usables(AsItems(vs), known, Allowed(categories));
    OneEach(Usables(items, known, Allowed(categories)), |items|);
    ParsedReadable(items, known, Allowed(categories));
    forall i | 0 <= i < |vs| ensures us[i] == Some(vs[i]) { assert ReadsBack(vs[i], known, Allowed(categories)); }
    AllKept(us, vs, |vs|);
    assert vs[..|vs|] == vs;
  }
}
