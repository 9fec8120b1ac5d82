/** The notification list of the header bell (hooks/useNotificacoes.ts),
    computed from the records the hook fetches: the active and the pending
    clients, the user's Receita entries and the months that already have a
    pro-labore. The current month is a parameter. */
module Notificacoes {
  import opened Common
  import opened Text
  import opened Calendar

  datatype ClienteRef = ClienteRef(id: string, nomeFantasia: string)

  /** A Receita entry: its 'YYYY-MM-DD' date (None when missing) and the
      client it belongs to. */
  datatype Lancamento = Lancamento(data: Option<string>, clienteId: string)

  datatype Tipo = SemLancamento | Pendente | ProLabore

  datatype Notificacao = Notificacao(tipo: Tipo, titulo: string, descricao: string, count: nat)

  /** `dataStr && dataStr.startsWith(mesAnoKey)`. */
  predicate NoMes(r: Lancamento, key: string)
  {
    r.data.Some? && r.data.value != "" && key <= r.data.value
  }

  /** The clients with revenue in the month of `key`. */
  function ComReceita(rs: seq<Lancamento>, key: string): set<string>
  {
    set i | 0 <= i < |rs| && NoMes(rs[i], key) :: rs[i].clienteId
  }

  /** The `clientesComReceita` set, filled by `forEach`. */
  method ClientesComReceita(rs: seq<Lancamento>, key: string) returns (s: set<string>)
    ensures s == ComReceita(rs, key)
  {
    s := {};
    for j := 0 to |rs|
      invariant s == set i | 0 <= i < j && NoMes(rs[i], key) :: rs[i].clienteId
    {
      if rs[j].data.Some? && rs[j].data.value != "" && key <= rs[j].data.value {
        s := s + {rs[j].clienteId};
      }
    }
  }

  /** `clientesAtivos.filter(c => !clientesComReceita.has(c.id))`. */
  function Sem(ativos: seq<ClienteRef>, com: set<string>): (r: seq<ClienteRef>)
    ensures |r| <= |ativos|
    ensures forall c :: c in r <==> c in ativos && c.id !in com
    ensures forall c :: multiset(r)[c] == if c.id in com then 0 else multiset(ativos)[c]
  {
    if ativos == [] then []
    else
      var last := ativos[|ativos| - 1];
      assert ativos == ativos[..|ativos| - 1] + [last];
      Sem(ativos[..|ativos| - 1], com) + (if last.id !in com then [last] else [])
  }

  function Plural(n: nat, one: string, many: string): string
  {
    if n > 1 then many else one
  }

  /** The sem-lancamento text, with the plural of "cliente" and of "ter"
      chosen by the count. */
  function DescSem(n: nat, mesLabel: string): string
  {
    NatStr(n) + " cliente" + Plural(n, "", "s") + " ainda não " + Plural(n, "tem", "têm")
    + " receita registrada em " + mesLabel
  }

  function DescPendente(n: nat): string
  {
    NatStr(n) + " cliente" + Plural(n, "", "s") + " com status Pendente aguardando regularização"
  }

  /** The plural "clientes" and the plural "têm" go together, and are used
      exactly when the count is above one. */
  lemma DescPlural(n: nat, mesLabel: string)
    ensures DescSem(n, mesLabel) == NatStr(n) + (if n > 1 then " clientes" else " cliente")
                                    + (if n > 1 then " ainda não têm" else " ainda não tem")
                                    + " receita registrada em " + mesLabel
    ensures DescPendente(n) == NatStr(n) + (if n > 1 then " clientes" else " cliente")
                               + " com status Pendente aguardando regularização"
  {
    var c, v := if n > 1 then "s" else "", if n > 1 then "têm" else "tem";
    var w := NatStr(n) + " cliente";
    assert " cliente" + c == (if n > 1 then " clientes" else " cliente");
    assert " ainda não " + v == (if n > 1 then " ainda não têm" else " ainda não tem");
    Regroup(w, c, " ainda não ", v);
    Regroup(NatStr(n), " cliente", c, " com status Pendente aguardando regularização");
  }

  /** `w + c + s + v`, regrouped as `(w + c) + (s + v)` and `w + (c + s)`. */
  lemma Regroup(w: string, c: string, s: string, v: string)
    ensures w + c + s + v == (w + c) + (s + v)
    ensures w + c + s == w + (c + s)
  {
  }

  /** The clients without revenue are exactly the active clients with no
      Receita entry whose date starts with the month's 'yyyy-MM' key. */
  lemma SemDoMesSpec(today: YearMonth, ativos: seq<ClienteRef>, receitas: seq<Lancamento>, c: ClienteRef)
    requires FourDigitYear(today)
    ensures c in SemDoMes(today, ativos, receitas) <==>
              c in ativos && forall i :: 0 <= i < |receitas| && receitas[i].clienteId == c.id ==>
                                           !NoMes(receitas[i], KeyYearMonth(today))
  {
  }

  /** With each active client listed once, the count of the sem-lancamento
      notification is the number of active clients with no Receita entry in
      the month: the filter neither repeats nor drops one of them. */
  lemma {:induction false} SemDoMesCount(today: YearMonth, ativos: seq<ClienteRef>, receitas: seq<Lancamento>)
    requires FourDigitYear(today)
    requires forall c :: multiset(ativos)[c] <= 1
    ensures |SemDoMes(today, ativos, receitas)| ==
              |set c | c in ativos && (forall i :: 0 <= i < |receitas| && receitas[i].clienteId == c.id ==>
                                                    !NoMes(receitas[i], KeyYearMonth(today)))|
  {
    var r := SemDoMes(today, ativos, receitas);
    assert forall c :: multiset(r)[c] <= multiset(ativos)[c];
    CardOfOnce(r);
    var sem := set c | c in ativos && (forall i :: 0 <= i < |receitas| && receitas[i].clienteId == c.id ==>
                                                    !NoMes(receitas[i], KeyYearMonth(today)));
    forall c
      ensures c in r <==> c in sem
    {
      SemDoMesSpec(today, ativos, receitas, c);
    }
    assert (set c | c in r) == sem;
  }

  /** A sequence with no element twice has as many elements as its set. */
  lemma {:induction false} CardOfOnce<T>(s: seq<T>)
    requires forall x :: multiset(s)[x] <= 1
    ensures |set x | x in s| == |s|
  {
    if s != [] {
      var t, x := s[..|s| - 1], s[|s| - 1];
      assert s == t + [x];
      assert multiset(s) == multiset(t) + multiset{x};
      forall y
        ensures multiset(t)[y] <= 1
      {
        assert multiset(s)[y] == multiset(t)[y] + multiset{x}[y];
      }
      CardOfOnce(t);
      assert multiset(s)[x] == multiset(t)[x] + 1;
      assert (set y | y in s) == (set y | y in t) + {x};
    }
  }

  /** `notificacoes.reduce((s, n) => s + n.count, 0)`. */
  function Total(ns: seq<Notificacao>): nat
  {
    if ns == [] then 0 else Total(ns[..|ns| - 1]) + ns[|ns| - 1].count
  }

  function Rank(t: Tipo): nat
  {
    match t
    case SemLancamento => 0
    case Pendente => 1
    case ProLabore => 2
  }

  predicate Has(ns: seq<Notificacao>, t: Tipo)
  {
    exists i :: 0 <= i < |ns| && ns[i].tipo == t
  }

  /** The `sem-lancamento` clients of the month. */
  function SemDoMes(today: YearMonth, ativos: seq<ClienteRef>, receitas: seq<Lancamento>): seq<ClienteRef>
    requires FourDigitYear(today)
  {
    Sem(ativos, ComReceita(receitas, KeyYearMonth(today)))
  }

  function ProLaboreDue(today: YearMonth, ativos: seq<ClienteRef>, proLaboreMeses: seq<string>): bool
    requires FourDigitYear(today)
  {
    KeyMonthYear(today) !in proLaboreMeses && |ativos| > 0
  }

  function Opt(cond: bool, n: Notificacao): seq<Notificacao>
  {
    if cond then [n] else []
  }

  /** The list `run` builds from the number of clients without revenue, the
      number of pending clients and whether the pro-labore is due. */
  function Lista(semN: nat, pendN: nat, pro: bool, mesLabel: string): seq<Notificacao>
  {
    Opt(semN > 0, N1(semN, mesLabel)) + Opt(pendN > 0, N2(pendN)) + Opt(pro, N3(mesLabel))
  }

  /** `run` and the `!userId` guard. */
  method Run(userId: string, today: YearMonth, ativos: seq<ClienteRef>, pendentes: seq<ClienteRef>,
             receitas: seq<Lancamento>, proLaboreMeses: seq<string>)
    returns (resultado: seq<Notificacao>)
    requires FourDigitYear(today)
    ensures userId == "" ==> resultado == []
    ensures userId != "" ==>
              resultado == Lista(|SemDoMes(today, ativos, receitas)|, |pendentes|,
                                 ProLaboreDue(today, ativos, proLaboreMeses), Label(today))
  {
    if userId == "" {
      return [];
    }
    var mesAnoKey := KeyYearMonth(today);
    var mesAnoProLabore := KeyMonthYear(today);
    var clientesComReceita := ClientesComReceita(receitas, mesAnoKey);
    var semLancamento := Sem(ativos, clientesComReceita);
    var proLaboreGerado := mesAnoProLabore in proLaboreMeses;
    var mesLabel := Label(today);
    resultado := Montar(|semLancamento|, |pendentes|, !proLaboreGerado && |ativos| > 0, mesLabel);
  }

  /** The pushes of `run`, one per condition that holds, in order. */
  method Montar(semN: nat, pendN: nat, pro: bool, mesLabel: string) returns (resultado: seq<Notificacao>)
    ensures resultado == Lista(semN, pendN, pro, mesLabel)
  {
    resultado := [];
    if semN > 0 {
      resultado := resultado + [N1(semN, mesLabel)];
    }
    var first := resultado;
    if pendN > 0 {
      resultado := resultado + [N2(pendN)];
    }
    Push(first, pendN > 0, N2(pendN));
    var second := resultado;
    if pro {
      resultado := resultado + [N3(mesLabel)];
    }
    Push(second, pro, N3(mesLabel));
  }

  /** A conditional push appends the optional piece. */
  lemma Push(xs: seq<Notificacao>, cond: bool, n: Notificacao)
    ensures (if cond then xs + [n] else xs) == xs + Opt(cond, n)
  {
    if !cond {
      assert xs + [] == xs;
    }
  }

  lemma {:induction false} TotalAppend(a: seq<Notificacao>, b: seq<Notificacao>)
    ensures Total(a + b) == Total(a) + Total(b)
    decreases |b|
  {
    if b == [] {
      assert a + b == a;
    } else {
      assert (a + b)[..|a + b| - 1] == a + b[..|b| - 1];
      TotalAppend(a, b[..|b| - 1]);
    }
  }

  /** The three optional pieces, each of one kind. */
  predicate OfKind(a: seq<Notificacao>, t: Tipo)
  {
    |a| <= 1 && forall x :: 0 <= x < |a| ==> a[x].tipo == t
  }

  /** Where each element of the three pieces lands, and the rank of its
      kind there. */
  lemma PiecesAt(a: seq<Notificacao>, b: seq<Notificacao>, c: seq<Notificacao>)
    requires OfKind(a, SemLancamento) && OfKind(b, Pendente) && OfKind(c, ProLabore)
    ensures var r := a + b + c;
            forall i :: 0 <= i < |r| ==>
              r[i] == (if i < |a| then a[i] else if i < |a| + |b| then b[i - |a|] else c[i - |a| - |b|])
              && Rank(r[i].tipo) == (if i < |a| then 0 else if i < |a| + |b| then 1 else 2)
  {
    var r := a + b + c;
    forall i | 0 <= i < |r|
      ensures r[i] == (if i < |a| then a[i] else if i < |a| + |b| then b[i - |a|] else c[i - |a| - |b|])
      ensures Rank(r[i].tipo) == (if i < |a| then 0 else if i < |a| + |b| then 1 else 2)
    {
      if i < |a| {
        assert r[i] == a[i];
      } else if i < |a| + |b| {
        assert r[i] == b[i - |a|];
      } else {
        assert r[i] == c[i - |a| - |b|];
      }
    }
  }

  lemma OrderedPieces(a: seq<Notificacao>, b: seq<Notificacao>, c: seq<Notificacao>)
    requires OfKind(a, SemLancamento) && OfKind(b, Pendente) && OfKind(c, ProLabore)
    ensures var r := a + b + c;
            (forall i, j :: 0 <= i < j < |r| ==> Rank(r[i].tipo) < Rank(r[j].tipo))
            && (Has(r, SemLancamento) <==> a != [])
            && (Has(r, Pendente) <==> b != [])
            && (Has(r, ProLabore) <==> c != [])
            && (forall i :: 0 <= i < |r| ==>
                  r[i] == if i < |a| then a[i] else if i < |a| + |b| then b[i - |a|] else c[i - |a| - |b|])
  {
    var r := a + b + c;
    PiecesAt(a, b, c);
    if a != [] { assert r[0].tipo == SemLancamento; }
    if b != [] { assert r[|a|].tipo == Pendente; }
    if c != [] { assert r[|a| + |b|].tipo == ProLabore; }
  }

  lemma TotalOpt(cond: bool, n: Notificacao)
    ensures Total(Opt(cond, n)) == if cond then n.count else 0
  {
    if cond { assert [n][..0] == []; }
  }

  function N1(semN: nat, mesLabel: string): Notificacao
  {
    Notificacao(SemLancamento, "Clientes sem receita no mês", DescSem(semN, mesLabel), semN)
  }

  function N2(pendN: nat): Notificacao
  {
    Notificacao(Pendente, "Clientes com cadastro pendente", DescPendente(pendN), pendN)
  }

  function N3(mesLabel: string): Notificacao
  {
    Notificacao(ProLabore, "Pro-labore não gerado", "Nenhum holerite foi gerado para " + mesLabel, 1)
  }

  /** The bell's list: the notifications come in the fixed order
      sem-lancamento, pendente, pro-labore, at most one of each, and each is
      present exactly when its condition holds. */
  lemma ListaOrder(semN: nat, pendN: nat, pro: bool, mesLabel: string)
    ensures var r := Lista(semN, pendN, pro, mesLabel);
            (forall i, j :: 0 <= i < j < |r| ==> Rank(r[i].tipo) < Rank(r[j].tipo))
            && (Has(r, SemLancamento) <==> semN > 0)
            && (Has(r, Pendente) <==> pendN > 0)
            && (Has(r, ProLabore) <==> pro)
  {
    OrderedPieces(Opt(semN > 0, N1(semN, mesLabel)), Opt(pendN > 0, N2(pendN)), Opt(pro, N3(mesLabel)));
  }

  /** Each notification carries its own count and text. */
  lemma ListaCounts(semN: nat, pendN: nat, pro: bool, mesLabel: string)
    ensures var r := Lista(semN, pendN, pro, mesLabel);
            (forall i :: 0 <= i < |r| && r[i].tipo == SemLancamento ==>
               r[i].count == semN && r[i].descricao == DescSem(semN, mesLabel))
            && (forall i :: 0 <= i < |r| && r[i].tipo == Pendente ==>
                  r[i].count == pendN && r[i].descricao == DescPendente(pendN))
            && (forall i :: 0 <= i < |r| && r[i].tipo == ProLabore ==> r[i].count == 1)
  {
    var a, b, c := Opt(semN > 0, N1(semN, mesLabel)), Opt(pendN > 0, N2(pendN)), Opt(pro, N3(mesLabel));
    OrderedPieces(a, b, c);
    var r := a + b + c;
    forall i | 0 <= i < |r|
      ensures r[i].tipo == SemLancamento ==> r[i] == N1(semN, mesLabel)
      ensures r[i].tipo == Pendente ==> r[i] == N2(pendN)
      ensures r[i].tipo == ProLabore ==> r[i] == N3(mesLabel)
    {
      if i < |a| {
        assert r[i] == a[i] == N1(semN, mesLabel);
      } else if i < |a| + |b| {
        assert r[i] == b[i - |a|] == N2(pendN);
      } else {
        assert r[i] == c[i - |a| - |b|] == N3(mesLabel);
      }
    }
  }

  /** The badge's total is the number of clients without revenue, plus the
      pending ones, plus one for a missing pro-labore. */
  lemma {:induction false} ListaTotal(semN: nat, pendN: nat, pro: bool, mesLabel: string)
    ensures Total(Lista(semN, pendN, pro, mesLabel)) == semN + pendN + (if pro then 1 else 0)
  {
    var a, b, c := Opt(semN > 0, N1(semN, mesLabel)), Opt(pendN > 0, N2(pendN)), Opt(pro, N3(mesLabel));
    TotalAppend(a, b);
    TotalAppend(a + b, c);
    TotalOpt(semN > 0, N1(semN, mesLabel));
    TotalOpt(pendN > 0, N2(pendN));
    TotalOpt(pro, N3(mesLabel));
  }
}
