/** The part of a conversation that is sent to the model: `cooHistory`.

    Lengths are counted in characters. Limits are counted in half characters, because half of an odd
    budget is not a whole number. */
module History {
  import opened Options

  const BUDGET: nat := 24_000
  const MARK := "\n[Предыдущее сообщение сокращено.]"

  datatype Turn = Turn(
    question: string,
    complete: bool,
    answer: Option<string>,
    documents: seq<string>,
    functionsState: Option<string>)

  datatype Role = User | Assistant

  datatype Message = Message(role: Role, content: string, functionsState: Option<string>)

  /** A question with its answer: the two messages that stay together. */
  datatype Exchange = Exchange(question: string, answer: string, functionsState: Option<string>) {

    function Messages(): (m: seq<Message>)
      ensures |m| == 2
    {
      [Message(User, question, None), Message(Assistant, answer, functionsState)]
    }

    function Length(): nat {
      |question| + |answer|
    }
  }

  // ---------------------------------------------------------------------------
  // Shortening
  // ---------------------------------------------------------------------------

  /** Half of `x`, rounded toward zero. */
  function Half(x: int): int {
    if 0 <= x then x / 2 else -((-x) / 2)
  }

  /** `text.slice(0, end)`; a negative end counts from the end of the text. */
  function SliceTo(text: string, end: int): string {
    if 0 <= end then text[..if end < |text| then end else |text|]
    else text[..if -end < |text| then |text| + end else 0]
  }

  function Shorten(text: string, halves: int): string {
    if 2 * |text| > halves then SliceTo(text, Half(halves - 76)) + MARK else text
  }

  function ShortLength(n: nat, halves: int): nat {
    var end := Half(halves - 76);
    if 2 * n <= halves then n
    else 34 + (if 0 <= end then (if end < n then end else n) else if -end < n then n + end else 0)
  }

  lemma ShortenLength(text: string, halves: int)
    ensures |Shorten(text, halves)| == ShortLength(|text|, halves)
  {
    assert |MARK| == 34;
  }

  function QuestionLimit(budget: int): int {
    if 16_000 < budget then 16_000 else budget
  }

  function PairLength(q: nat, a: nat, budget: int): nat {
    var question := ShortLength(q, QuestionLimit(budget));
    question + ShortLength(a, 2 * (budget - question))
  }

  /** Shortening the question alone leaves no room for the answer, although the pair fits as it is. */
  predicate Overshoots(q: nat, a: nat, budget: int) {
    budget < 75 && budget < 2 * q && budget < ShortLength(q, QuestionLimit(budget)) + a
  }

  /** A pair that fits its budget exceeds it after shortening exactly under `Overshoots`, by at most 66. */
  lemma PairMayOvershoot(q: nat, a: nat, budget: nat)
    requires 1 <= a && q + a <= budget
    ensures PairLength(q, a, budget) > budget <==> Overshoots(q, a, budget)
    ensures PairLength(q, a, budget) <= budget + 66
  {
    var question := ShortLength(q, QuestionLimit(budget));
    if 2 * q <= QuestionLimit(budget) {
      assert question == q;
    } else if budget >= 76 {
      assert question <= QuestionLimit(budget) / 2;
    } else if budget == 75 {
      assert question == 34;
    }
  }

  /** The first pair is always cut down to the whole budget. */
  lemma FirstPairFits(q: nat, a: nat)
    ensures PairLength(q, a, BUDGET) <= BUDGET
  {
  }

  // ---------------------------------------------------------------------------
  // Selection
  // ---------------------------------------------------------------------------

  predicate Usable(t: Turn) {
    t.complete && t.answer.Some? && t.answer.value != ""
  }

  function State(t: Turn, documents: seq<string>): Option<string> {
    if multiset(t.documents) == multiset(documents) && documents != [] && t.functionsState.Some?
      && t.functionsState.value != ""
    then t.functionsState else None
  }

  /** The question and the answer of a turn, cut down to a budget. */
  function Present(t: Turn, budget: int, documents: seq<string>): (e: Exchange)
    requires Usable(t)
    ensures e.Length() == Cost(t, budget)
  {
    var question := Shorten(t.question, QuestionLimit(budget));
    ShortenLength(t.question, QuestionLimit(budget));
    ShortenLength(t.answer.value, 2 * (budget - |question|));
    Exchange(question, Shorten(t.answer.value, 2 * (budget - |question|)), State(t, documents))
  }

  function Cost(t: Turn, budget: int): nat
    requires Usable(t)
  {
    PairLength(|t.question|, |t.answer.value|, budget)
  }

  /** A later pair is taken only if it fits as it is. */
  predicate Fits(t: Turn, budget: int, first: bool)
    requires Usable(t)
  {
    first || |t.question| + |t.answer.value| <= budget
  }

  /** The exchanges taken from turns given newest first: unusable turns are skipped, and the first
      usable one that does not fit ends the selection. */
  function Select(turns: seq<Turn>, budget: int, first: bool, documents: seq<string>): seq<Exchange> {
    if turns == [] then []
    else if !Usable(turns[0]) then Select(turns[1..], budget, first, documents)
    else if !Fits(turns[0], budget, first) then []
    else [Present(turns[0], budget, documents)]
         + Select(turns[1..], budget - Cost(turns[0], budget), false, documents)
  }

  /** `selected.reverse().flat()` */
  function ReverseFlat(selected: seq<Exchange>): seq<Message> {
    if selected == [] then [] else ReverseFlat(selected[1..]) + selected[0].Messages()
  }

  lemma SelectStep(turns: seq<Turn>, n: nat, budget: int, first: bool, documents: seq<string>)
    requires n < |turns|
    ensures var t := turns[n];
            Select(turns[n..], budget, first, documents) ==
            if !Usable(t) then Select(turns[n + 1..], budget, first, documents)
            else if !Fits(t, budget, first) then []
            else [Present(t, budget, documents)] + Select(turns[n + 1..], budget - Cost(t, budget), false, documents)
  {
    assert turns[n..][1..] == turns[n + 1..];
  }

  method CooHistory(turns: seq<Turn>, documents: seq<string>) returns (messages: seq<Message>)
    ensures messages == ReverseFlat(Select(turns, BUDGET, true, documents))
  {
    var selected: seq<Exchange> := [];
    var budget := BUDGET as int;
    var n := 0;
    ghost var all := Select(turns, BUDGET, true, documents);
    ghost var rest := all;
    assert turns[0..] == turns;
    while n < |turns|
      invariant n <= |turns|
      invariant rest == Select(turns[n..], budget, selected == [], documents)
      invariant selected + rest == all
    {
      var turn := turns[n];
      SelectStep(turns, n, budget, selected == [], documents);
      n := n + 1;
      if !turn.complete || turn.answer.None? || turn.answer.value == "" {
        continue;
      }
      if |turn.question| + |turn.answer.value| > budget && selected != [] {
        rest := [];
        break;
      }
      var exchange := Present(turn, budget, documents);
      assert rest == [exchange] + rest[1..];
      budget := budget - exchange.Length();
      assert selected + rest == selected + [exchange] + rest[1..];
      selected, rest := selected + [exchange], rest[1..];
    }
    assert rest == [];
    assert selected == all;
    messages := ReverseFlat(selected);
  }

  // ---------------------------------------------------------------------------
  // What is sent
  // ---------------------------------------------------------------------------

  /** The usable turns, in the same order. */
  function Usables(turns: seq<Turn>): seq<Turn> {
    if turns == [] then []
    else (if Usable(turns[0]) then [turns[0]] else []) + Usables(turns[1..])
  }

  /** The budget left before the usable turn `i`; zero if there is none. */
  function RemainingBefore(turns: seq<Turn>, budget: int, i: nat): int
    decreases |turns|
  {
    if turns == [] then 0
    else if !Usable(turns[0]) then RemainingBefore(turns[1..], budget, i)
    else if i == 0 then budget
    else RemainingBefore(turns[1..], budget - Cost(turns[0], budget), i - 1)
  }

  /** The selection is a contiguous run of the newest usable turns: exchange `i` is usable turn `i`. */
  lemma {:induction false} SelectsNewestRun(turns: seq<Turn>, budget: int, first: bool, documents: seq<string>, i: nat)
    requires i < |Select(turns, budget, first, documents)|
    ensures i < |Usables(turns)| && Usable(Usables(turns)[i])
    ensures Select(turns, budget, first, documents)[i]
         == Present(Usables(turns)[i], RemainingBefore(turns, budget, i), documents)
    decreases |turns|
  {
    var t, rest := turns[0], turns[1..];
    if !Usable(t) {
      SelectsNewestRun(rest, budget, first, documents, i);
    } else if i > 0 {
      SelectsNewestRun(rest, budget - Cost(t, budget), false, documents, i - 1);
    }
  }

  /** The run ends only at a usable turn that does not fit what is left. */
  lemma {:induction false} SelectionIsMaximal(turns: seq<Turn>, budget: int, first: bool, documents: seq<string>)
    ensures var k := |Select(turns, budget, first, documents)|;
            k < |Usables(turns)| ==>
              Usable(Usables(turns)[k]) && !Fits(Usables(turns)[k], RemainingBefore(turns, budget, k), first && k == 0)
    decreases |turns|
  {
    if turns != [] {
      var t, rest := turns[0], turns[1..];
      if !Usable(t) {
        SelectionIsMaximal(rest, budget, first, documents);
      } else if Fits(t, budget, first) {
        SelectionIsMaximal(rest, budget - Cost(t, budget), false, documents);
      }
    }
  }

  /** The exchange `j` places from the oldest selected one is found at messages `2 j` and `2 j + 1`. */
  lemma {:induction false} ReversedExchanges(selected: seq<Exchange>, j: nat)
    requires j < |selected|
    ensures |ReverseFlat(selected)| == 2 * |selected|
    ensures ReverseFlat(selected)[2 * j..2 * j + 2] == selected[|selected| - 1 - j].Messages()
    ensures var e := selected[|selected| - 1 - j];
            && ReverseFlat(selected)[2 * j] == Message(User, e.question, None)
            && ReverseFlat(selected)[2 * j + 1] == Message(Assistant, e.answer, e.functionsState)
    decreases |selected|
  {
    var tail, m := selected[1..], selected[0].Messages();
    var rest := ReverseFlat(tail);
    var all := ReverseFlat(selected);
    assert all == rest + m;
    if j < |tail| {
      ReversedExchanges(tail, j);
      assert (rest + m)[2 * j..2 * j + 2] == rest[2 * j..2 * j + 2];
    } else {
      if tail != [] {
        ReversedExchanges(tail, 0);
      }
      assert |rest| == 2 * j && (rest + m)[2 * j..2 * j + 2] == m;
    }
    assert all[2 * j..2 * j + 2][0] == all[2 * j] && all[2 * j..2 * j + 2][1] == all[2 * j + 1];
  }

  // ---------------------------------------------------------------------------
  // What is in an exchange
  // ---------------------------------------------------------------------------

  /** A text within its limit is kept; a longer one is cut 38 characters before the limit and marked, so that it stays
      below the limit. */
  lemma ShortenedIsMarked(text: string, limit: nat)
    requires 38 <= limit
    ensures Shorten(text, 2 * limit) ==
            if |text| <= limit then text else text[..limit - 38] + "\n[Предыдущее сообщение сокращено.]"
    ensures |Shorten(text, 2 * limit)| <= limit
  {
    assert Half(2 * limit - 76) == limit - 38;
  }

  /** The question gets half of the budget, at most 8,000 characters, and the answer what the question leaves; the
      model's state goes along exactly if the turn was about the same documents. */
  lemma ExchangeIsCut(t: Turn, budget: int, documents: seq<string>)
    requires Usable(t)
    ensures var e := Present(t, budget, documents);
            && e.question == Shorten(t.question, if budget < 16_000 then budget else 16_000)
            && e.answer == Shorten(t.answer.value, 2 * (budget - |e.question|))
            && e.functionsState ==
               (if documents != [] && multiset(documents) == multiset(t.documents) && t.functionsState != Some("")
                then t.functionsState else None)
  {
    hide Shorten, Cost;
  }

  /** The turns that have an answer, whole and oldest first. */
  function Whole(turns: seq<Turn>, documents: seq<string>): seq<Message> {
    if turns == [] then []
    else
      var t, before := turns[0], Whole(turns[1..], documents);
      if t.complete && t.answer.Some? && t.answer.value != ""
      then before + [Message(User, t.question, None), Message(Assistant, t.answer.value, State(t, documents))]
      else before
  }

  /** The answers once and the questions twice, because a question may take half of what is left. */
  function Weight(turns: seq<Turn>): nat {
    if turns == [] then 0
    else
      var t := turns[0];
      Weight(turns[1..]) + if Usable(t) then 2 * |t.question| + |t.answer.value| else 0
  }

  lemma {:induction false} NothingIsCut(turns: seq<Turn>, budget: nat, first: bool, documents: seq<string>)
    requires Weight(turns) <= budget && forall t | t in turns :: |t.question| <= 8_000
    ensures ReverseFlat(Select(turns, budget, first, documents)) == Whole(turns, documents)
    decreases |turns|
  {
    if turns != [] {
      var t, rest := turns[0], turns[1..];
      assert t in turns && forall other | other in rest :: other in turns;
      if Usable(t) {
        var e := Exchange(t.question, t.answer.value, State(t, documents));
        assert Present(t, budget, documents) == e;
        NothingIsCut(rest, budget - e.Length(), false, documents);
        var selected := Select(rest, budget - e.Length(), false, documents);
        assert ([e] + selected)[1..] == selected;
      } else {
        NothingIsCut(rest, budget, first, documents);
      }
    }
  }

  /** A history that is short enough is sent as it is: every question followed by its answer, in their order. */
  lemma ShortHistoryIsWhole(turns: seq<Turn>, documents: seq<string>)
    requires Weight(turns) <= 24_000 && forall t | t in turns :: |t.question| <= 8_000
    ensures ReverseFlat(Select(turns, BUDGET, true, documents)) == Whole(turns, documents)
  {
    NothingIsCut(turns, BUDGET, true, documents);
  }

  function Total(messages: seq<Message>): nat {
    if messages == [] then 0 else Total(messages[..|messages| - 1]) + |messages[|messages| - 1].content|
  }

  function Spent(selected: seq<Exchange>): nat {
    if selected == [] then 0 else selected[0].Length() + Spent(selected[1..])
  }

  lemma {:induction false} TotalIsSpent(selected: seq<Exchange>)
    ensures Total(ReverseFlat(selected)) == Spent(selected)
    decreases |selected|
  {
    if selected != [] {
      TotalIsSpent(selected[1..]);
      var rest, m := ReverseFlat(selected[1..]), selected[0].Messages();
      assert (rest + m)[..|rest| + 1] == rest + [m[0]];
      assert (rest + [m[0]])[..|rest|] == rest;
    }
  }

  /** The last exchange, taken as a later one, is longer once shortened than the budget left for it. */
  predicate LastOvershoots(turns: seq<Turn>, budget: int, first: bool) {
    if turns == [] then false
    else if !Usable(turns[0]) then LastOvershoots(turns[1..], budget, first)
    else if !Fits(turns[0], budget, first) then false
    else
      || (!first && Overshoots(|turns[0].question|, |turns[0].answer.value|, budget))
      || LastOvershoots(turns[1..], budget - Cost(turns[0], budget), false)
  }

  /** Once the budget is overdrawn nothing more is taken. */
  lemma {:induction false} NothingAfterOverdraft(turns: seq<Turn>, budget: int, documents: seq<string>)
    requires budget < 0
    ensures Select(turns, budget, false, documents) == [] && !LastOvershoots(turns, budget, false)
    decreases |turns|
  {
    if turns != [] && !Usable(turns[0]) {
      NothingAfterOverdraft(turns[1..], budget, documents);
    }
  }

  lemma {:induction false} SpentWithin(turns: seq<Turn>, budget: nat, first: bool, documents: seq<string>)
    requires first ==> budget == BUDGET
    ensures Spent(Select(turns, budget, first, documents)) <= budget + 66
    ensures Spent(Select(turns, budget, first, documents)) > budget <==> LastOvershoots(turns, budget, first)
    decreases |turns|
  {
    if turns != [] {
      var t, rest := turns[0], turns[1..];
      if !Usable(t) {
        SpentWithin(rest, budget, first, documents);
      } else if Fits(t, budget, first) {
        var q, a := |t.question|, |t.answer.value|;
        if first {
          FirstPairFits(q, a);
        } else {
          PairMayOvershoot(q, a, budget);
        }
        var left := budget - Cost(t, budget);
        if left < 0 {
          NothingAfterOverdraft(rest, left, documents);
        } else {
          SpentWithin(rest, left, false, documents);
        }
      }
    }
  }

  /** The documented bound of 24,000 characters fails exactly when a later exchange overshoots, and never
      by more than 66 characters. */
  lemma HistoryLength(turns: seq<Turn>, documents: seq<string>)
    ensures var total := Total(ReverseFlat(Select(turns, BUDGET, true, documents)));
            total <= BUDGET + 66 && (total > BUDGET <==> LastOvershoots(turns, BUDGET, true))
  {
    SpentWithin(turns, BUDGET, true, documents);
    TotalIsSpent(Select(turns, BUDGET, true, documents));
  }

  /** With 75 characters left before each later exchange the documented bound holds. */
  lemma {:induction false} RoomPreventsOvershoot(turns: seq<Turn>, budget: int, first: bool)
    requires forall i | (if first then 1 else 0) <= i < |Select(turns, budget, first, [])| ::
               75 <= RemainingBefore(turns, budget, i)
    ensures !LastOvershoots(turns, budget, first)
    decreases |turns|
  {
    if turns != [] {
      var t, rest := turns[0], turns[1..];
      if !Usable(t) {
        forall i | (if first then 1 else 0) <= i < |Select(rest, budget, first, [])|
          ensures 75 <= RemainingBefore(rest, budget, i)
        {
          assert 75 <= RemainingBefore(turns, budget, i);
        }
        RoomPreventsOvershoot(rest, budget, first);
      } else if Fits(t, budget, first) {
        var left := budget - Cost(t, budget);
        forall i | 0 <= i < |Select(rest, left, false, [])| ensures 75 <= RemainingBefore(rest, left, i) {
          assert 75 <= RemainingBefore(turns, budget, i + 1);
        }
        RoomPreventsOvershoot(rest, left, false);
        assert !first ==> 75 <= RemainingBefore(turns, budget, 0);
      }
    }
  }

  function Text(n: nat): (s: string)
    ensures |s| == n
  {
    seq(n, _ => 'x')
  }

  function Answered(q: nat, a: nat): Turn {
    Turn(Text(q), true, Some(Text(a)), [], None)
  }

  /** Two turns of 24,000 characters in all whose transcript has 24,066. */
  lemma BoundIsExceeded()
    ensures Total(ReverseFlat(Select([Answered(7926, 16_000), Answered(73, 1)], BUDGET, true, []))) == BUDGET + 66
  {
    var a, b := Answered(7926, 16_000), Answered(73, 1);
    var turns := [a, b];
    assert turns[1..] == [b] && [b][1..] == [];
    var s := Select(turns, BUDGET, true, []);
    assert Cost(a, BUDGET) == 23_926;
    assert Select([b], 74, false, []) == [Present(b, 74, [])];
    assert s[0] == Present(a, BUDGET, []) && s[1..] == [Present(b, 74, [])];
    assert Spent(s) == 23_926 + Spent(s[1..]) == 23_926 + Cost(b, 74);
    TotalIsSpent(s);
  }
}
