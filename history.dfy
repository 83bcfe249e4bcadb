/** The conversation-history formatter of netlify/functions/made.js: each
    caller-supplied turn becomes one upstream message, user turns get the
    customer label, the first user turn also gets the system prompt, and
    two filters then drop model turns that echo the system prompt or the
    widget's greeting. */
module History {
  import opened Seqs
  import opened JsText
  import opened Gemini

  // Every function below takes the system prompt as `sys`; the handler
  // passes `Gemini.SystemInstructions`.

  /** One entry of `conversation_history`. Roles are not validated. */
  datatype Turn = Turn(role: string, text: string)

  const Label := "El cliente dice: "

  /** The widget's opening line, sent back as a model turn. */
  const Greeting := "¡Hola! Soy Made 🛍️, tu personal shopper virtual. Dime, ¿qué producto estás buscando hoy? Así te puedo ayudar a encontrar la mejor opción."

  /** The system prompt and the label put in front of `text`. */
  function Annotate(sys: string, text: string): string {
    sys + "\n\n" + Label + text
  }

  /** Some turn before `index` has role user: `history.slice(0, index).some(...)`. */
  predicate EarlierUser(history: seq<Turn>, index: nat)
    requires index <= |history|
  {
    exists j :: 0 <= j < index && history[j].role == "user"
  }

  predicate IsFirstUser(history: seq<Turn>, index: nat)
    requires index < |history|
  {
    history[index].role == "user" && !EarlierUser(history, index)
  }

  /** The `map` callback applied to the turn at `index`. Its first block
      prefixes a user turn at index 0 and its `isFirstUserMessage` block
      prefixes the first user turn again, so a user turn at the head carries
      the system prompt twice; the block guarded by a user turn after a model
      turn is empty. */
  function FormatTurn(sys: string, history: seq<Turn>, index: nat): (c: Content)
    requires index < |history|
    ensures c.role == history[index].role && |c.parts| == 1
    ensures IsFirstUser(history, index) && index == 0 ==>
      c.parts[0].text == Annotate(sys, Annotate(sys, history[index].text))
    ensures IsFirstUser(history, index) && index > 0 ==>
      c.parts[0].text == Annotate(sys, history[index].text)
    ensures history[index].role == "user" && !IsFirstUser(history, index) ==>
      c.parts[0].text == Label + history[index].text
    ensures history[index].role != "user" ==> c.parts[0].text == history[index].text
  {
    var message := history[index];
    var text := if index == 0 && message.role == "user" then Annotate(sys, message.text) else message.text;
    var text := if IsFirstUser(history, index) then Annotate(sys, text)
                else if message.role == "user" then Label + text
                else text;
    Content(message.role, [Part(text)])
  }

  /** The result of the `map`, before filtering. */
  function Mapped(sys: string, history: seq<Turn>): (cs: seq<Content>)
    ensures |cs| == |history|
    ensures forall i :: 0 <= i < |history| ==> cs[i] == FormatTurn(sys, history, i)
  {
    seq(|history|, i requires 0 <= i < |history| => FormatTurn(sys, history, i))
  }

  /** The first filter: a model message whose trimmed text is the trimmed
      system prompt is dropped. Messages built here always have one part. */
  predicate NotEchoedInstructions(sys: string, c: Content): (keep: bool)
    ensures c.role != "model" ==> keep
    ensures c.role == "model" && |c.parts| == 1 ==> (keep <==> Trim(c.parts[0].text) != Trim(sys))
  {
    c.role != "model" || c.parts == [] || Trim(c.parts[0].text) != Trim(sys)
  }

  /** The second filter: a model message that is exactly the greeting is dropped. */
  predicate NotGreeting(c: Content): (keep: bool)
    ensures c.role != "model" ==> keep
    ensures c.role == "model" && |c.parts| == 1 ==> (keep <==> c.parts[0].text != Greeting)
  {
    c.role != "model" || c.parts == [] || c.parts[0].text != Greeting
  }

  predicate Kept(sys: string, c: Content) {
    NotEchoedInstructions(sys, c) && NotGreeting(c)
  }

  /** The `contents` sent upstream: the mapped turns that pass both filters. */
  function Format(sys: string, history: seq<Turn>): (cs: seq<Content>)
    ensures |cs| <= |history|
    ensures forall c :: c in cs ==>
      Kept(sys, c) && exists i :: 0 <= i < |history| && c == FormatTurn(sys, history, i)
  {
    var m := Mapped(sys, history);
    var cs := Filter(Filter(m, c => NotEchoedInstructions(sys, c)), NotGreeting);
    assert forall c :: c in cs ==> c in m;
    cs
  }

  // ---------------------------------------------------------------------
  // Which turns survive, and in what order

  predicate Survives(sys: string, history: seq<Turn>, index: nat)
    requires index < |history|
  {
    Kept(sys, FormatTurn(sys, history, index))
  }

  /** The indices of the surviving turns, in increasing order. */
  function Survivors(sys: string, history: seq<Turn>): seq<nat> {
    KeptIndices(Mapped(sys, history), c => Kept(sys, c), 0)
  }

  /** `Format` is one filter by `Kept` over the mapped turns. */
  lemma FormatIsOneFilter(sys: string, history: seq<Turn>)
    ensures Format(sys, history) == Filter(Mapped(sys, history), c => Kept(sys, c))
  {
    FilterConjunction(Mapped(sys, history), c => NotEchoedInstructions(sys, c), NotGreeting, c => Kept(sys, c));
  }

  /** The output is exactly the surviving turns, formatted, in input order:
      the filters drop turns and never reorder them. */
  lemma FormatSelectsSurvivors(sys: string, history: seq<Turn>)
    ensures |Format(sys, history)| == |Survivors(sys, history)|
    ensures forall j :: 0 <= j < |Survivors(sys, history)| ==>
      Survivors(sys, history)[j] < |history|
      && Format(sys, history)[j] == FormatTurn(sys, history, Survivors(sys, history)[j])
    ensures forall j1, j2 :: 0 <= j1 < j2 < |Survivors(sys, history)| ==>
      Survivors(sys, history)[j1] < Survivors(sys, history)[j2]
    ensures forall i :: 0 <= i < |history| ==> (i in Survivors(sys, history) <==> Survives(sys, history, i))
  {
    FormatIsOneFilter(sys, history);
    FilterIsAtKeptIndices(Mapped(sys, history), c => Kept(sys, c), 0);
    assert Mapped(sys, history)[0..] == Mapped(sys, history);
  }

  /** Exactly the model turns that echo the system prompt (after trimming)
      or repeat the greeting are dropped; user turns, and turns of any other
      role, always survive. */
  lemma SurvivesIff(sys: string, history: seq<Turn>, index: nat)
    requires index < |history|
    ensures Survives(sys, history, index) <==>
      !(history[index].role == "model"
        && (Trim(history[index].text) == Trim(sys) || history[index].text == Greeting))
    ensures history[index].role != "model" ==> Survives(sys, history, index)
  {
  }

  /** No message sent upstream is a model echo of the system prompt or the
      greeting, wherever it sat in the history; every message has one part
      and the role of some input turn. */
  lemma FormatDropsEchoes(sys: string, history: seq<Turn>)
    ensures forall c :: c in Format(sys, history) ==>
      |c.parts| == 1
      && (exists i :: 0 <= i < |history| && history[i].role == c.role)
      && (c.role == "model" ==> c.parts[0].text != Greeting && Trim(c.parts[0].text) != Trim(sys))
  {
    forall c | c in Format(sys, history)
      ensures |c.parts| == 1 && exists i :: 0 <= i < |history| && history[i].role == c.role
    {
      var i :| 0 <= i < |history| && c == FormatTurn(sys, history, i);
      assert history[i].role == c.role;
    }
  }

  /** Both filters are idempotent: applying either once more to the output
      changes nothing. */
  lemma FormatIsFiltered(sys: string, history: seq<Turn>)
    ensures Filter(Format(sys, history), c => NotEchoedInstructions(sys, c)) == Format(sys, history)
    ensures Filter(Format(sys, history), NotGreeting) == Format(sys, history)
  {
    var out := Format(sys, history);
    FilterKeepsAll(out, c => NotEchoedInstructions(sys, c));
    FilterKeepsAll(out, NotGreeting);
  }

  // ---------------------------------------------------------------------
  // The first user turn

  lemma {:induction false} EarliestUserExists(history: seq<Turn>, i: nat)
    requires i < |history| && history[i].role == "user"
    ensures exists f :: 0 <= f <= i && IsFirstUser(history, f)
    decreases i
  {
    if EarlierUser(history, i) {
      var j :| 0 <= j < i && history[j].role == "user";
      EarliestUserExists(history, j);
    } else {
      assert IsFirstUser(history, i);
    }
  }

  /** At most one turn is the first user turn, and there is one whenever a
      user turn exists: the earliest one. */
  lemma FirstUserUnique(history: seq<Turn>)
    ensures forall i, j ::
      0 <= i < |history| && 0 <= j < |history| && IsFirstUser(history, i) && IsFirstUser(history, j) ==> i == j
    ensures (exists i :: 0 <= i < |history| && history[i].role == "user") ==>
      exists i :: 0 <= i < |history| && IsFirstUser(history, i)
  {
    forall i, j | 0 <= i < |history| && 0 <= j < |history| && IsFirstUser(history, i) && IsFirstUser(history, j)
      ensures i == j
    {
      assert history[i].role == "user" && history[j].role == "user";
    }
    if exists i :: 0 <= i < |history| && history[i].role == "user" {
      var i :| 0 <= i < |history| && history[i].role == "user";
      EarliestUserExists(history, i);
    }
  }

  /** The first user turn is never dropped, so the system prompt reaches the
      upstream service whenever the history holds a user turn; at the head
      of the history it carries the prompt twice. */
  lemma FirstUserSent(sys: string, history: seq<Turn>, i: nat)
    requires i < |history| && IsFirstUser(history, i)
    ensures FormatTurn(sys, history, i) in Format(sys, history)
    ensures FormatTurn(sys, history, i).parts[0].text ==
      if i == 0 then Annotate(sys, Annotate(sys, history[i].text)) else Annotate(sys, history[i].text)
  {
    FormatSelectsSurvivors(sys, history);
    assert i in Survivors(sys, history);
    var j :| 0 <= j < |Survivors(sys, history)| && Survivors(sys, history)[j] == i;
    assert Format(sys, history)[j] == FormatTurn(sys, history, i);
  }

  /** A one-turn history `[{role: "user", text: "hola"}]` yields one user
      message carrying the system prompt and the label twice. */
  lemma SingleUserTurn(sys: string)
    ensures Format(sys, [Turn("user", "hola")]) == [Content("user", [Part(Annotate(sys, Annotate(sys, "hola")))])]
  {
    var h := [Turn("user", "hola")];
    assert !EarlierUser(h, 0);
    FormatSelectsSurvivors(sys, h);
    assert Survives(sys, h, 0);
  }

  /** A history holding only the greeting formats to no message at all. */
  lemma GreetingOnly(sys: string)
    ensures Format(sys, [Turn("model", Greeting)]) == []
  {
    var h := [Turn("model", Greeting)];
    var c := Content("model", [Part(Greeting)]);
    assert Mapped(sys, h) == [c];
    assert !Kept(sys, c);
    FormatIsOneFilter(sys, h);
    assert Filter([c], x => Kept(sys, x)) == [];
  }

  // ---------------------------------------------------------------------
  // A one-pass reference: a fold carrying a "seen a user turn" flag

  /** Formats `rest` left to right; `seenUser` tells whether a user turn came
      before it and `atHead` whether `rest` starts the history. */
  function FoldFormat(sys: string, rest: seq<Turn>, seenUser: bool, atHead: bool): (cs: seq<Content>)
    ensures |cs| == |rest|
    decreases |rest|
  {
    if rest == [] then []
    else
      var t := rest[0];
      var text := if t.role != "user" then t.text
                  else if seenUser then Label + t.text
                  else if atHead then Annotate(sys, Annotate(sys, t.text))
                  else Annotate(sys, t.text);
      [Content(t.role, [Part(text)])] + FoldFormat(sys, rest[1..], seenUser || t.role == "user", false)
  }

  lemma {:induction false} FoldFormatFrom(sys: string, history: seq<Turn>, k: nat)
    requires k <= |history|
    ensures FoldFormat(sys, history[k..], EarlierUser(history, k), k == 0) == Mapped(sys, history)[k..]
    decreases |history| - k
  {
    if k < |history| {
      FoldFormatFrom(sys, history, k + 1);
      assert history[k..][1..] == history[k + 1..];
      assert EarlierUser(history, k + 1) == (EarlierUser(history, k) || history[k].role == "user") by {
        if history[k].role == "user" { assert 0 <= k < k + 1; }
        if EarlierUser(history, k) {
          var j :| 0 <= j < k && history[j].role == "user";
          assert 0 <= j < k + 1;
        }
      }
      assert Mapped(sys, history)[k..] == [FormatTurn(sys, history, k)] + Mapped(sys, history)[k + 1..];
    }
  }

  /** The index-based `map` (which rescans the prefix for every turn) agrees
      with the one-pass fold, so `Format` is the fold followed by one filter. */
  lemma FormatAgreesWithFold(sys: string, history: seq<Turn>)
    ensures Mapped(sys, history) == FoldFormat(sys, history, false, true)
    ensures Format(sys, history) == Filter(FoldFormat(sys, history, false, true), c => Kept(sys, c))
  {
    FoldFormatFrom(sys, history, 0);
    assert history[0..] == history;
    assert Mapped(sys, history)[0..] == Mapped(sys, history);
    FormatIsOneFilter(sys, history);
  }
}
