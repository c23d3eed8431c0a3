/** The plain-text expense report that the two share buttons hand to the platform's share
    sheet. Both buttons build the same text by appending to a message line by line. Date
    and time formatting, currency formatting and `localeCompare` are collaborators, given by
    a `Locale`; `localeCompare` is read as comparing a real-valued collation rank. */
module Report {
  import opened Wrappers
  import opened Types
  import opened Text
  import opened Lists
  import opened Sorting
  import Storage

  /** The formatting the report relies on. */
  datatype Locale = Locale(
    dayMonthYear: Timestamp -> string,
    hourMinute: Timestamp -> string,
    currency: real -> string,
    collation: string -> real)

  // ---------------------------------------------------------------------------
  // The report, line by line

  /** `${session.notes}` on its own line, only for notes that are present and not empty. */
  function NotesLine(notes: Option<string>): (line: string)
    ensures line == "" <==> notes.None? || notes.value == ""
    ensures line != "" ==> line == "📝 Ghi chú: " + notes.value + "\n"
  {
    if notes.Some? && notes.value != "" then "📝 Ghi chú: " + notes.value + "\n" else ""
  }

  /** `session.players.find(p => p.id === id)?.name || ""`. */
  function NameOf(players: seq<Player>, id: Id): (name: string)
    ensures (forall j :: 0 <= j < |players| ==> players[j].id != id) ==> name == ""
  {
    match FirstIndex(players, Storage.PlayerIdOf, id)
    case None => ""
    case Some(i) => players[i].name
  }

  /** The names of the ids in order, with unknown ids (and empty names) dropped. */
  function NamesOf(ids: seq<Id>, players: seq<Player>): (names: seq<string>)
    ensures |names| <= |ids|
    ensures forall k :: 0 <= k < |names| ==> names[k] != ""
  {
    if ids == [] then []
    else
      var rest := NamesOf(ids[1..], players);
      (if NameOf(players, ids[0]) != "" then [NameOf(players, ids[0])] else []) + rest
  }

  /** The players an expense is divided among are listed only when it is divided among some
      but not all of the session's players. */
  predicate ShowsDivide(e: Expense, players: seq<Player>) {
    e.divideAmong.Some? && 0 < |e.divideAmong.value| < |players|
  }

  function DescriptionPart(description: string): (part: string)
    ensures part == "" <==> description == ""
  {
    if description != "" then " (" + description + ")" else ""
  }

  function DividePart(e: Expense, players: seq<Player>): (part: string)
    ensures part == "" <==> !ShowsDivide(e, players)
  {
    if ShowsDivide(e, players) then "\n   → Chia cho: " + Join(NamesOf(e.divideAmong.value, players), ", ") else ""
  }

  /** The number, the type label and the amount of the `n`-th expense. */
  function EntryHead(e: Expense, n: nat, loc: Locale): string {
    ShowNat(n) + ". " + Label(e.kind) + ": " + loc.currency(e.amount)
  }

  /** The entry of the `n`-th expense (counting from 1). */
  function Entry(e: Expense, n: nat, players: seq<Player>, loc: Locale): string {
    EntryHead(e, n, loc) + DescriptionPart(e.description) + DividePart(e, players) + "\n\n"
  }

  /** The pieces `f(xs[0], 1)`, ..., `f(xs[|xs| - 1], |xs|)` one after the other, as a loop
      over `xs` appends them. */
  function Numbered<T>(xs: seq<T>, f: (T, nat) -> string): string {
    if xs == [] then ""
    else Numbered(xs[..|xs| - 1], f) + f(xs[|xs| - 1], |xs|)
  }

  function EntryOf(players: seq<Player>, loc: Locale): (Expense, nat) -> string {
    (e: Expense, n: nat) => Entry(e, n, players, loc)
  }

  /** The entries of `es`, numbered from 1. */
  function Entries(es: seq<Expense>, players: seq<Player>, loc: Locale): string {
    Numbered(es, EntryOf(players, loc))
  }

  /** `splitByPlayer[id] || 0`: a player missing from the split is shown owing 0. */
  function AmountFor(split: map<Id, real>, id: Id): (amount: real)
    ensures id !in split ==> amount == 0.0
    ensures id in split ==> amount == split[id]
  {
    if id in split then split[id] else 0.0
  }

  function PlayerLine(p: Player, split: map<Id, real>, loc: Locale): string {
    "• " + p.name + ": " + loc.currency(AmountFor(split, p.id)) + "\n"
  }

  /** One line per player, in the order given. */
  function PlayerLines(ps: seq<Player>, split: map<Id, real>, loc: Locale): string {
    if ps == [] then ""
    else PlayerLines(ps[..|ps| - 1], split, loc) + PlayerLine(ps[|ps| - 1], split, loc)
  }

  /** `a.name.localeCompare(b.name)` as the key of the stable sort: ascending rank is
      descending negated rank. */
  function NameKey(collation: string -> real): Player -> real {
    (p: Player) => -collation(p.name)
  }

  /** `[...session.players].sort((a, b) => a.name.localeCompare(b.name))`. */
  function ByName(players: seq<Player>, collation: string -> real): (r: seq<Player>)
    ensures multiset(r) == multiset(players)
    ensures forall i, j :: 0 <= i < j < |r| ==> collation(r[i].name) <= collation(r[j].name)
  {
    SortDescSorted(players, NameKey(collation));
    var r := SortDesc(players, NameKey(collation));
    assert forall i, j :: 0 <= i < j < |r| ==> NameKey(collation)(r[i]) >= NameKey(collation)(r[j]);
    r
  }

  /** The header: title, date, time, location, number of players, then the notes line. */
  function Header(s: Session, loc: Locale): string {
    "📋 BÁO CÁO CHI PHÍ CẦU LÔNG\n\n"
      + ("🗓️ Ngày: " + loc.dayMonthYear(s.date) + "\n")
      + ("🕒 Giờ: " + loc.hourMinute(s.date) + "\n")
      + ("📍 Địa điểm: " + s.location + "\n")
      + ("👥 Số người tham gia: " + ShowNat(|s.players|) + " người\n")
      + NotesLine(s.notes)
  }

  /** The whole report for a session and the result of splitting it. */
  function ReportText(s: Session, result: ExpenseCalculation, loc: Locale): string {
    Header(s, loc)
      + "\n----------------------\n\n"
      + "🧾 CHI TIẾT CÁC KHOẢN CHI:\n\n"
      + Entries(s.expenses, s.players, loc)
      + "----------------------\n\n"
      + ("💰 TỔNG CHI PHÍ: " + loc.currency(result.totalAmount) + "\n\n")
      + "💸 CHI PHÍ MỖI NGƯỜI:\n\n"
      + PlayerLines(ByName(s.players, loc.collation), result.splitByPlayer, loc)
  }

  /** The title of the share sheet. */
  function ShareTitle(s: Session, loc: Locale): (title: string)
    ensures title == "Chi phí đánh cầu lông ngày " + loc.dayMonthYear(s.date)
  {
    "Chi phí đánh cầu lông ngày " + loc.dayMonthYear(s.date)
  }

  // ---------------------------------------------------------------------------
  // What the report says

  /** The pieces read front to back: the piece of the first element numbered `from`, then
      the rest. */
  function NumberedFrom<T>(xs: seq<T>, from: nat, f: (T, nat) -> string): string {
    if xs == [] then "" else f(xs[0], from) + NumberedFrom(xs[1..], from + 1, f)
  }

  lemma {:induction false} NumberedFromSnoc<T>(xs: seq<T>, x: T, from: nat, f: (T, nat) -> string)
    ensures NumberedFrom(xs + [x], from, f) == NumberedFrom(xs, from, f) + f(x, from + |xs|)
  {
    if xs == [] {
      assert xs + [x] == [x];
    } else {
      assert (xs + [x])[1..] == xs[1..] + [x];
      NumberedFromSnoc(xs[1..], x, from + 1, f);
    }
  }

  lemma {:induction false} NumberedIsFrom<T>(xs: seq<T>, f: (T, nat) -> string)
    ensures Numbered(xs, f) == NumberedFrom(xs, 1, f)
  {
    if xs != [] {
      var init := xs[..|xs| - 1];
      assert init + [xs[|xs| - 1]] == xs;
      NumberedIsFrom(init, f);
      NumberedFromSnoc(init, xs[|xs| - 1], 1, f);
    }
  }

  /** There is one entry per expense, in order, numbered from 1: the report lists the
      entry of the first expense numbered 1, followed by the entries of the others numbered
      from 2. */
  lemma EntriesNumbered(es: seq<Expense>, players: seq<Player>, loc: Locale)
    requires es != []
    ensures Entries(es, players, loc) ==
      Entry(es[0], 1, players, loc) + NumberedFrom(es[1..], 2, EntryOf(players, loc))
  {
    NumberedIsFrom(es, EntryOf(players, loc));
  }

  /** Appending one more expense appends its entry, numbered after the others. */
  lemma EntriesSnoc(es: seq<Expense>, e: Expense, players: seq<Player>, loc: Locale)
    ensures Entries(es + [e], players, loc) == Entries(es, players, loc) + Entry(e, |es| + 1, players, loc)
  {
    var xs := es + [e];
    assert xs[..|xs| - 1] == es;
    assert xs[|xs| - 1] == e;
    assert EntryOf(players, loc)(e, |xs|) == Entry(e, |es| + 1, players, loc);
  }

  /** Each player line read front to back. */
  function LinesFrom(ps: seq<Player>, split: map<Id, real>, loc: Locale): string {
    if ps == [] then "" else PlayerLine(ps[0], split, loc) + LinesFrom(ps[1..], split, loc)
  }

  lemma {:induction false} LinesFromSnoc(ps: seq<Player>, p: Player, split: map<Id, real>, loc: Locale)
    ensures LinesFrom(ps + [p], split, loc) == LinesFrom(ps, split, loc) + PlayerLine(p, split, loc)
  {
    if ps == [] {
      assert ps + [p] == [p];
    } else {
      assert (ps + [p])[1..] == ps[1..] + [p];
      LinesFromSnoc(ps[1..], p, split, loc);
    }
  }

  /** Every player gets exactly one line, in the order given: the lines of the players
      sorted by name. */
  lemma {:induction false} OneLinePerPlayer(ps: seq<Player>, split: map<Id, real>, loc: Locale)
    ensures PlayerLines(ps, split, loc) == LinesFrom(ps, split, loc)
  {
    if ps != [] {
      var init := ps[..|ps| - 1];
      OneLinePerPlayer(init, split, loc);
      LinesFromSnoc(init, ps[|ps| - 1], split, loc);
      assert init + [ps[|ps| - 1]] == ps;
    }
  }

  /** An id of no session player adds no name to the list of the players an expense is
      divided among; a known id adds the player's name. */
  lemma {:induction false} NamesOfSnoc(ids: seq<Id>, id: Id, players: seq<Player>)
    ensures NamesOf(ids + [id], players) ==
      NamesOf(ids, players) + (if NameOf(players, id) != "" then [NameOf(players, id)] else [])
  {
    if ids == [] {
      assert ids + [id] == [id];
    } else {
      assert (ids + [id])[1..] == ids[1..] + [id];
      NamesOfSnoc(ids[1..], id, players);
    }
  }

  lemma NamesOfUnknown(ids: seq<Id>, id: Id, players: seq<Player>)
    requires forall j :: 0 <= j < |players| ==> players[j].id != id
    ensures NamesOf(ids + [id], players) == NamesOf(ids, players)
  {
    NamesOfSnoc(ids, id, players);
  }

  /** A known id with a non-empty name reads as the name of a session player with that id. */
  lemma NameOfKnown(players: seq<Player>, id: Id)
    requires forall j :: 0 <= j < |players| ==> players[j].name != ""
    requires id in PlayerIds(players)
    ensures NameOf(players, id) != ""
    ensures exists j :: 0 <= j < |players| && players[j].id == id && players[j].name == NameOf(players, id)
  {
    var j :| 0 <= j < |players| && PlayerIds(players)[j] == id;
    assert Storage.PlayerIdOf(players[j]) == id;
    var found := FirstIndex(players, Storage.PlayerIdOf, id);
    assert found.Some?;
    assert players[found.value].id == id;
  }

  /** When the ids are of session players with non-empty names, none is dropped: the
      `k`-th name is the name of the `k`-th id (which `NameOfKnown` says is the name of a
      session player with that id). */
  lemma {:induction false} NamesOfKnown(ids: seq<Id>, players: seq<Player>)
    requires forall j :: 0 <= j < |players| ==> players[j].name != ""
    requires forall k :: 0 <= k < |ids| ==> ids[k] in PlayerIds(players)
    ensures |NamesOf(ids, players)| == |ids|
    ensures forall k :: 0 <= k < |ids| ==> NamesOf(ids, players)[k] == NameOf(players, ids[k])
  {
    if ids != [] {
      var rest := ids[1..];
      assert forall k :: 0 <= k < |rest| ==> rest[k] == ids[k + 1];
      NamesOfKnown(rest, players);
      NameOfKnown(players, ids[0]);
      var names := NamesOf(ids, players);
      var tail := NamesOf(rest, players);
      assert names == [NameOf(players, ids[0])] + tail;
      forall k | 0 <= k < |ids| ensures names[k] == NameOf(players, ids[k]) {
        if k > 0 {
          assert ids[k] == rest[k - 1];
          assert names[k] == tail[k - 1];
        }
      }
    }
  }

  // ---------------------------------------------------------------------------
  // The builders

  lemma AppendAssoc(a: string, b: string, c: string)
    ensures (a + b) + c == a + (b + c)
  {
  }

  lemma AppendNothing(a: string)
    ensures a + "" == a
  {
  }

  /** The body of the expenses loop: the entry of one expense, built piece by piece. */
  method BuildEntry(expense: Expense, number: nat, players: seq<Player>, loc: Locale) returns (entry: string)
    ensures entry == Entry(expense, number, players, loc)
  {
    var expenseType := Label(expense.kind);
    entry := ShowNat(number) + ". " + expenseType + ": " + loc.currency(expense.amount);
    assert entry == EntryHead(expense, number, loc);
    if expense.description != "" {
      entry := entry + (" (" + expense.description + ")");
    } else {
      AppendNothing(entry);
    }
    assert entry == EntryHead(expense, number, loc) + DescriptionPart(expense.description);
    if expense.divideAmong.Some? && |expense.divideAmong.value| > 0 && |expense.divideAmong.value| < |players| {
      var playerNames := Join(NamesOf(expense.divideAmong.value, players), ", ");
      entry := entry + ("\n   → Chia cho: " + playerNames);
    } else {
      AppendNothing(entry);
    }
    entry := entry + "\n\n";
  }

  /** The expenses loop: each entry appended in turn. */
  method AppendEntries(prefix: string, expenses: seq<Expense>, players: seq<Player>, loc: Locale)
    returns (message: string)
    ensures message == prefix + Entries(expenses, players, loc)
  {
    message := prefix;
    AppendNothing(prefix);
    var index := 0;
    while index < |expenses|
      invariant 0 <= index <= |expenses|
      invariant message == prefix + Entries(expenses[..index], players, loc)
    {
      var entry := BuildEntry(expenses[index], index + 1, players, loc);
      assert EntryOf(players, loc)(expenses[index], index + 1) == entry;
      NumberedStep(prefix, expenses, index, entry, EntryOf(players, loc));
      message := message + entry;
      index := index + 1;
    }
    assert expenses[..index] == expenses;
  }

  /** One more piece appended after a prefix extends the numbered pieces by one element. */
  lemma NumberedStep<T>(prefix: string, xs: seq<T>, index: nat, piece: string, f: (T, nat) -> string)
    requires index < |xs| && piece == f(xs[index], index + 1)
    ensures (prefix + Numbered(xs[..index], f)) + piece == prefix + Numbered(xs[..index + 1], f)
  {
    var next := xs[..index + 1];
    assert next[..|next| - 1] == xs[..index];
    assert next[|next| - 1] == xs[index];
    AppendAssoc(prefix, Numbered(xs[..index], f), piece);
  }

  /** The players loop: one line per player, in the order given. */
  method AppendPlayerLines(prefix: string, sortedPlayers: seq<Player>, split: map<Id, real>, loc: Locale)
    returns (message: string)
    ensures message == prefix + PlayerLines(sortedPlayers, split, loc)
  {
    message := prefix;
    AppendNothing(prefix);
    var k := 0;
    while k < |sortedPlayers|
      invariant 0 <= k <= |sortedPlayers|
      invariant message == prefix + PlayerLines(sortedPlayers[..k], split, loc)
    {
      var player := sortedPlayers[k];
      var amount := if player.id in split then split[player.id] else 0.0;
      var line := "• " + player.name + ": " + loc.currency(amount) + "\n";
      assert line == PlayerLine(player, split, loc);
      assert sortedPlayers[..k + 1][..k] == sortedPlayers[..k];
      AppendAssoc(prefix, PlayerLines(sortedPlayers[..k], split, loc), line);
      message := message + line;
      k := k + 1;
    }
    assert sortedPlayers[..k] == sortedPlayers;
  }

  /** The header lines, as both buttons append them. */
  method AppendHeader(session: Session, loc: Locale) returns (message: string)
    ensures message == Header(session, loc)
  {
    var date := loc.dayMonthYear(session.date);
    var time := loc.hourMinute(session.date);
    message := "📋 BÁO CÁO CHI PHÍ CẦU LÔNG\n\n";
    message := message + ("🗓️ Ngày: " + date + "\n");
    message := message + ("🕒 Giờ: " + time + "\n");
    message := message + ("📍 Địa điểm: " + session.location + "\n");
    message := message + ("👥 Số người tham gia: " + ShowNat(|session.players|) + " người\n");
    if session.notes.Some? && session.notes.value != "" {
      message := message + ("📝 Ghi chú: " + session.notes.value + "\n");
    } else {
      AppendNothing(message);
    }
  }

  /** `prepareMessage` of the web button, written out the same way inside the native
      button's `handleShare`: the report with the title of the share sheet. */
  method PrepareMessage(session: Session, calculatedExpenses: ExpenseCalculation, loc: Locale)
    returns (message: string, title: string)
    ensures message == ReportText(session, calculatedExpenses, loc)
    ensures title == ShareTitle(session, loc)
  {
    var date := loc.dayMonthYear(session.date);
    message := AppendHeader(session, loc);
    message := message + "\n----------------------\n\n";
    message := message + "🧾 CHI TIẾT CÁC KHOẢN CHI:\n\n";
    message := AppendEntries(message, session.expenses, session.players, loc);
    message := message + "----------------------\n\n";
    message := message + ("💰 TỔNG CHI PHÍ: " + loc.currency(calculatedExpenses.totalAmount) + "\n\n");
    message := message + "💸 CHI PHÍ MỖI NGƯỜI:\n\n";
    var sortedPlayers := ByName(session.players, loc.collation);
    message := AppendPlayerLines(message, sortedPlayers, calculatedExpenses.splitByPlayer, loc);
    title := "Chi phí đánh cầu lông ngày " + date;
  }

  /** Where a share button sends the report: the native share sheet, the browser's Web
      Share dialog, or the clipboard followed by a notice. */
  datatype Delivery =
    | NativeShare(message: string, title: string)
    | WebShare(title: string, text: string)
    | Clipboard(text: string)

  /** The native button's `handleShare`: the report always goes to the share sheet. */
  method ShareNative(session: Session, calculatedExpenses: ExpenseCalculation, loc: Locale)
    returns (d: Delivery)
    ensures d == NativeShare(ReportText(session, calculatedExpenses, loc), ShareTitle(session, loc))
  {
    var message, title := PrepareMessage(session, calculatedExpenses, loc);
    d := NativeShare(message, title);
  }

  /** The web button's `handleShare`: on the web the Web Share dialog when the browser has
      one and the clipboard otherwise, and the share sheet elsewhere; the text delivered is
      the same report on every route. */
  method ShareWeb(session: Session, calculatedExpenses: ExpenseCalculation, loc: Locale,
                  onWeb: bool, hasWebShare: bool)
    returns (d: Delivery)
    ensures d.NativeShare? <==> !onWeb
    ensures d.WebShare? <==> onWeb && hasWebShare
    ensures d.Clipboard? <==> onWeb && !hasWebShare
    ensures (if d.NativeShare? then d.message else d.text) == ReportText(session, calculatedExpenses, loc)
    ensures !d.Clipboard? ==> d.title == ShareTitle(session, loc)
  {
    var message, title := PrepareMessage(session, calculatedExpenses, loc);
    if onWeb {
      if hasWebShare {
        d := WebShare(title, message);
      } else {
        d := Clipboard(message);
      }
    } else {
      d := NativeShare(message, title);
    }
  }
}
