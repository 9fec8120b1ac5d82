/** The period policy of the monthly-revenue report (pages/Relatorios.tsx):
    the window of the last n closed months, and its truncation to the
    months on or after the client's opening (registration) date, both in the
    preview shown on the page and in the decision `handleGerar` takes. */
module RelatoriosPeriod {
  import opened Common
  import opened Calendar
  import Text

  /** One month of the report window, `{ mesAno, label }`; the 'yyyy-MM' key
      `mesAno` is derived from the month (see MesAno). */
  datatype Month = Month(ym: YearMonth, labelText: string)

  function MesAno(m: Month): string
    requires FourDigitYear(m.ym)
  {
    KeyYearMonth(m.ym)
  }

  /** A client as the report page loads it; `dataAbertura` is 'DD/MM/AAAA'
      or '' when the record has none. */
  datatype Cliente = Cliente(id: string, nomeFantasia: string, razaoSocial: string,
                             cnpj: string, dataAbertura: string)

  /** The window entry for the month numbered k. */
  function MonthAt(k: int): (m: Month)
    requires 0 <= k < 120000
    ensures m.ym == FromIndex(k) && Index(m.ym) == k && FourDigitYear(m.ym)
  {
    var ym := FromIndex(k);
    Month(ym, Label(ym))
  }

  /** The months a report may cover on a given day: 6 or 12 of them in the
      source, and today's year has four digits. */
  predicate WindowFits(n: nat, today: YearMonth)
  {
    Valid(today) && 1 <= today.year <= 9999 && n <= 12
  }

  /** The last n closed months before today's month, oldest first. */
  function ClosedMonths(n: nat, today: YearMonth): (w: seq<Month>)
    requires WindowFits(n, today)
  {
    seq(n, i requires 0 <= i < n => MonthAt(Index(today) - n + i))
  }

  /** `getClosedMonths`: pushes subMonths(lastClosed, i) for i = n-1 down to 0. */
  method GetClosedMonths(n: nat, today: YearMonth) returns (months: seq<Month>)
    requires WindowFits(n, today)
    ensures months == ClosedMonths(n, today)
  {
    var lastClosed := Index(today) - 1;
    months := [];
    var i := n;
    while i > 0
      invariant 0 <= i <= n
      invariant |months| == n - i
      invariant forall j :: 0 <= j < n - i ==> months[j] == MonthAt(Index(today) - n + j)
    {
      i := i - 1;
      months := months + [MonthAt(lastClosed - i)];
    }
  }

  /** Month k of w is month s + k on the calendar line. */
  predicate Consecutive(w: seq<Month>, s: int)
  {
    forall i :: 0 <= i < |w| ==> Valid(w[i].ym) && Index(w[i].ym) == s + i
  }

  /** The closed-month window has exactly n months, consecutive and oldest
      first; its last month is the one before today's and today's month is
      never in it. */
  lemma ClosedMonthsWindow(n: nat, today: YearMonth)
    requires WindowFits(n, today)
    ensures |ClosedMonths(n, today)| == n
    ensures Consecutive(ClosedMonths(n, today), Index(today) - n)
    ensures forall i :: 0 <= i < n ==> FourDigitYear(ClosedMonths(n, today)[i].ym)
    ensures forall i :: 0 <= i < n ==> ClosedMonths(n, today)[i].ym != today
    ensures n > 0 ==> ClosedMonths(n, today)[n - 1].ym == FromIndex(Index(today) - 1)
  {
    var w := ClosedMonths(n, today);
    forall i | 0 <= i < n
      ensures Valid(w[i].ym) && Index(w[i].ym) == Index(today) - n + i
      ensures FourDigitYear(w[i].ym) && w[i].ym != today
    {
      assert w[i] == MonthAt(Index(today) - n + i);
    }
  }

  lemma TwoDigits(n: nat)
    requires 10 <= n < 100
    ensures Text.PadNat(n, 2) == [Text.DigitChar(n / 10), Text.DigitChar(n % 10)]
  {
    assert Text.NatStr(n) == Text.NatStr(n / 10) + [Text.DigitChar(n % 10)];
  }

  lemma LabelsExample()
    ensures Label(YearMonth(2025, 11)) == "nov/25"
    ensures Label(YearMonth(2025, 12)) == "dez/25"
    ensures Label(YearMonth(2026, 1)) == "jan/26"
  {
    TwoDigits(25);
    TwoDigits(26);
    assert Text.DigitChar(2) == '2' && Text.DigitChar(5) == '5' && Text.DigitChar(6) == '6';
  }

  /** The three-month window of 15 February 2026. */
  lemma ClosedMonthsExample()
    ensures var w := ClosedMonths(3, YearMonth(2026, 2));
            |w| == 3 && w[0] == Month(YearMonth(2025, 11), "nov/25")
            && w[1] == Month(YearMonth(2025, 12), "dez/25") && w[2] == Month(YearMonth(2026, 1), "jan/26")
  {
    WindowExample();
    MonthsExample();
  }

  /** A step of ClosedMonthsExample: the February 2026 window as month numbers. */
  lemma WindowExample()
    ensures var w := ClosedMonths(3, YearMonth(2026, 2));
            |w| == 3 && w[0] == MonthAt(24310) && w[1] == MonthAt(24311) && w[2] == MonthAt(24312)
  {
    assert Index(YearMonth(2026, 2)) == 24313;
  }

  /** A step of ClosedMonthsExample and TruncationExample: the three months of the window. */
  lemma MonthsExample()
    ensures MonthAt(24310) == Month(YearMonth(2025, 11), "nov/25")
    ensures MonthAt(24311) == Month(YearMonth(2025, 12), "dez/25")
    ensures MonthAt(24312) == Month(YearMonth(2026, 1), "jan/26")
  {
    IndexExample();
    LabelsExample();
  }

  /** A step of MonthsExample: the month numbers of the window. */
  lemma IndexExample()
    ensures FromIndex(24310) == YearMonth(2025, 11)
    ensures FromIndex(24311) == YearMonth(2025, 12)
    ensures FromIndex(24312) == YearMonth(2026, 1)
  {
  }

  /** How `parseDateAbertura` ends: null, an Invalid Date, or a date. */
  datatype Abertura = Absent | Invalid | Parsed(date: Date)

  /** `parseDateAbertura(d)`: nothing for an empty or short string, otherwise
      whatever date-fns' `parse(d, 'dd/MM/yyyy')` gives (`parse` here). */
  function ParseDateAbertura(d: string, parse: string -> Option<Date>): (r: Abertura)
    ensures r.Absent? <==> |d| < 8
    ensures r.Invalid? <==> |d| >= 8 && parse(d).None?
    ensures r.Parsed? ==> Some(r.date) == parse(d)
  {
    if |d| < 8 then Absent
    else match parse(d)
      case None => Invalid
      case Some(dt) => Parsed(dt)
  }

  /** `meses.filter(m => parse(m.mesAno) >= startOfMonth(dt))`. */
  function KeepFrom(meses: seq<Month>, dt: Date): (r: seq<Month>)
    ensures |r| <= |meses|
    ensures forall m :: m in r <==> m in meses && MonthStartOnOrAfter(m.ym, dt)
  {
    if meses == [] then []
    else if MonthStartOnOrAfter(meses[0].ym, dt) then [meses[0]] + KeepFrom(meses[1..], dt)
    else KeepFrom(meses[1..], dt)
  }

  function Clamp(x: int, lo: int, hi: int): int
    requires lo <= hi
  {
    if x < lo then lo else if x > hi then hi else x
  }

  /** On a consecutive window the filter keeps a suffix: it drops exactly the
      months before the opening month, so the kept months stay in order. */
  lemma {:induction false} KeepFromSuffix(w: seq<Month>, s: int, dt: Date)
    requires Consecutive(w, s) && Valid(MonthOf(dt))
    ensures KeepFrom(w, dt) == w[Clamp(Index(MonthOf(dt)) - s, 0, |w|)..]
    decreases |w|
  {
    if w != [] {
      var k := Index(MonthOf(dt));
      assert Consecutive(w[1..], s + 1);
      KeepFromSuffix(w[1..], s + 1, dt);
      assert MonthStartOnOrAfter(w[0].ym, dt) <==> s >= k;
      if s >= k {
        assert w[1..][0..] == w[1..];
      } else {
        assert w[1..][Clamp(k - s - 1, 0, |w| - 1)..] == w[Clamp(k - s, 0, |w|)..];
      }
    }
  }

  /** The client with the given id, as `clientes.find(c => c.id === id)`. */
  function FindCliente(clientes: seq<Cliente>, id: string): Option<Cliente>
  {
    Find(clientes, (c: Cliente) => c.id == id)
  }

  /** `mesesPreview`: the months listed on the page for the selected client.
      An Invalid Date makes every `>=` comparison false, so it lists none. */
  function MesesPreview(todos: seq<Month>, clientes: seq<Cliente>, clienteId: string,
                        parse: string -> Option<Date>): seq<Month>
  {
    match FindCliente(clientes, clienteId)
    case None => todos
    case Some(c) =>
      match ParseDateAbertura(c.dataAbertura, parse)
      case Absent => todos
      case Invalid => []
      case Parsed(dt) => KeepFrom(todos, dt)
  }

  /** The confirmation modal's contents (`cnpjAlertInfo`). */
  datatype AlertInfo = AlertInfo(mesesValidos: seq<Month>, clienteNome: string, abertura: Date)

  /** What `handleGerar` does. */
  datatype Action =
    | Idle                                   // no selection, signed out or unknown client
    | Generate(cliente: Cliente, meses: seq<Month>)   // calls gerarPdf at once
    | Alert(info: AlertInfo)                 // opens the modal and waits

  /** `handleGerar`: generate directly unless the opening date is after the
      start of the first window month; then open the modal with the months
      on or after the opening month (possibly none). An Invalid Date compares
      false, so it generates the whole window. */
  function HandleGerar(signedIn: bool, clienteId: string, clientes: seq<Cliente>,
                       todos: seq<Month>, parse: string -> Option<Date>): Action
    requires |todos| >= 1
  {
    if clienteId == "" || !signedIn then Idle
    else match FindCliente(clientes, clienteId)
      case None => Idle
      case Some(c) =>
        match ParseDateAbertura(c.dataAbertura, parse)
        case Parsed(dt) =>
          if AfterMonthStart(dt, todos[0].ym)
          then Alert(AlertInfo(KeepFrom(todos, dt), c.nomeFantasia, dt))
          else Generate(c, todos)
        case _ => Generate(c, todos)
  }

  /** The modal offers "Gerar assim mesmo" only when some month is left. */
  function ConfirmOffered(info: AlertInfo): bool
  {
    |info.mesesValidos| > 0
  }

  /** A report request that reached `gerarPdf`: the months it receives. */
  function MonthsGenerated(a: Action, confirmed: bool): (r: Option<seq<Month>>)
    ensures r.Some? ==> |r.value| > 0 || a.Generate?
  {
    match a
    case Idle => None
    case Generate(_, ms) => Some(ms)
    case Alert(info) => if confirmed && ConfirmOffered(info) then Some(info.mesesValidos) else None
  }

  /** Both sides of the policy on the window of a given day. The window goes
      through unchanged, with no modal, when the opening date is missing or
      not after the first month's start; otherwise the modal lists exactly
      the months from the opening month on, and it is a block (empty list,
      no confirm button) exactly when the opening month is after the window. */
  lemma {:induction false} HandleGerarOnWindow(n: nat, today: YearMonth, clientes: seq<Cliente>,
                                               c: Cliente, parse: string -> Option<Date>)
    requires WindowFits(n, today) && n >= 1
    requires FindCliente(clientes, c.id) == Some(c) && c.id != ""
    ensures var todos := ClosedMonths(n, today);
            var a := HandleGerar(true, c.id, clientes, todos, parse);
            var ab := ParseDateAbertura(c.dataAbertura, parse);
            && (ab.Absent? || ab.Invalid? ==> a == Generate(c, todos))
            && (ab.Parsed? && !AfterMonthStart(ab.date, todos[0].ym) ==> a == Generate(c, todos))
            && (ab.Parsed? && AfterMonthStart(ab.date, todos[0].ym) && Valid(MonthOf(ab.date)) ==>
                  a.Alert?
                  && a.info.mesesValidos
                     == todos[Clamp(Index(MonthOf(ab.date)) - (Index(today) - n), 0, n)..]
                  && (ConfirmOffered(a.info) <==> Index(MonthOf(ab.date)) < Index(today)))
  {
    var todos := ClosedMonths(n, today);
    ClosedMonthsWindow(n, today);
    var ab := ParseDateAbertura(c.dataAbertura, parse);
    if ab.Parsed? && Valid(MonthOf(ab.date)) {
      KeepFromSuffix(todos, Index(today) - n, ab.date);
    }
  }

  /** A window month never precedes the opening month when the opening date
      is not after the window's first day: the preview then lists the whole
      window too, as `handleGerar` generates it. */
  lemma {:induction false} PreviewAgreesWhenNotAfter(n: nat, today: YearMonth, dt: Date)
    requires WindowFits(n, today) && n >= 1 && Valid(MonthOf(dt))
    requires !AfterMonthStart(dt, ClosedMonths(n, today)[0].ym)
    ensures KeepFrom(ClosedMonths(n, today), dt) == ClosedMonths(n, today)
  {
    var todos := ClosedMonths(n, today);
    ClosedMonthsWindow(n, today);
    KeepFromSuffix(todos, Index(today) - n, dt);
    assert Index(MonthOf(dt)) <= Index(todos[0].ym);
  }

  /** An opening date inside the first window month, after its first day,
      still opens the modal although no month is dropped. */
  lemma {:induction false} ConfirmWithoutExclusion(n: nat, today: YearMonth, clientes: seq<Cliente>,
                                                   c: Cliente, parse: string -> Option<Date>)
    requires WindowFits(n, today) && n >= 1
    requires FindCliente(clientes, c.id) == Some(c) && c.id != ""
    requires var ab := ParseDateAbertura(c.dataAbertura, parse);
             ab.Parsed? && MonthOf(ab.date) == ClosedMonths(n, today)[0].ym && ab.date.day > 1
    ensures HandleGerar(true, c.id, clientes, ClosedMonths(n, today), parse)
            == Alert(AlertInfo(ClosedMonths(n, today), c.nomeFantasia,
                               ParseDateAbertura(c.dataAbertura, parse).date))
  {
    var todos := ClosedMonths(n, today);
    ClosedMonthsWindow(n, today);
    var dt := ParseDateAbertura(c.dataAbertura, parse).date;
    KeepFromSuffix(todos, Index(today) - n, dt);
    assert todos[0..] == todos;
  }

  /** An opening date that does not parse: the preview lists no month while
      `handleGerar` generates the whole window without asking. */
  lemma InvalidDateDiverges(todos: seq<Month>, clientes: seq<Cliente>, c: Cliente,
                            parse: string -> Option<Date>)
    requires |todos| >= 1 && c.id != "" && FindCliente(clientes, c.id) == Some(c)
    requires |c.dataAbertura| >= 8 && parse(c.dataAbertura).None?
    ensures MesesPreview(todos, clientes, c.id, parse) == []
    ensures HandleGerar(true, c.id, clientes, todos, parse) == Generate(c, todos)
  {
  }

  /** A client opened on 10 January 2026 against the window of 15 February
      2026: the modal keeps January only, two months are excluded. */
  lemma TruncationExample(clientes: seq<Cliente>, c: Cliente, parse: string -> Option<Date>)
    requires c.id != "" && FindCliente(clientes, c.id) == Some(c)
    requires |c.dataAbertura| >= 8 && parse(c.dataAbertura) == Some(Date(2026, 1, 10))
    ensures var todos := ClosedMonths(3, YearMonth(2026, 2));
            var a := HandleGerar(true, c.id, clientes, todos, parse);
            a.Alert? && a.info.mesesValidos == [todos[2]]
            && |todos| - |a.info.mesesValidos| == 2
  {
    var today := YearMonth(2026, 2);
    HandleGerarOnWindow(3, today, clientes, c, parse);
    ClosedMonthsExample();
  }
}
