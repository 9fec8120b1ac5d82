/** The ledger page (pages/Financeiro.tsx): the user's entries newest
    first, the balance and the income and expense cards, the active clients
    in name order, and the record a new entry is saved as. */
module Financeiro {
  import opened Common
  import opened Sorting

  datatype Tipo = Receita | Despesa

  datatype Lancamento = Lancamento(id: string, descricao: string, valor: real, tipo: Tipo, data: string,
                                   hasNf: bool, nfUrl: Option<string>, clienteId: string,
                                   clienteNome: string, userId: string)

  datatype ClienteRef = ClienteRef(id: string, nomeFantasia: string)

  // ---------------------------------------------------------------- cards

  /** `saldo`: the reduce that adds a Receita and subtracts anything else. */
  function Saldo(ls: seq<Lancamento>): real
  {
    if ls == [] then 0.0
    else
      var l := ls[|ls| - 1];
      if l.tipo == Receita then Saldo(ls[..|ls| - 1]) + l.valor else Saldo(ls[..|ls| - 1]) - l.valor
  }

  /** The sum of the values of the entries of one kind (the Receitas and
      the Despesas cards). */
  function SumOf(ls: seq<Lancamento>, t: Tipo): real
  {
    if ls == [] then 0.0
    else SumOf(ls[..|ls| - 1], t) + (if ls[|ls| - 1].tipo == t then ls[|ls| - 1].valor else 0.0)
  }

  /** The balance is the income card less the expense card; an empty
      ledger has balance 0. */
  lemma {:induction false} SaldoIsIncomeLessExpense(ls: seq<Lancamento>)
    ensures Saldo(ls) == SumOf(ls, Receita) - SumOf(ls, Despesa)
    ensures ls == [] ==> Saldo(ls) == 0.0
    decreases |ls|
  {
    if ls != [] {
      SaldoIsIncomeLessExpense(ls[..|ls| - 1]);
    }
  }

  lemma {:induction false} SumOfAppend(a: seq<Lancamento>, b: seq<Lancamento>, t: Tipo)
    ensures SumOf(a + b, t) == SumOf(a, t) + SumOf(b, t)
    decreases |b|
  {
    if b == [] {
      assert a + b == a;
    } else {
      assert (a + b)[..|a + b| - 1] == a + b[..|b| - 1];
      SumOfAppend(a, b[..|b| - 1], t);
    }
  }

  /** The sum over one element of the ledger. */
  lemma SumOfOne(l: Lancamento, t: Tipo)
    ensures SumOf([l], t) == if l.tipo == t then l.valor else 0.0
  {
    assert [l][..0] == [];
  }

  /** Taking out the element at k takes its value out of the sum. */
  lemma SumOfRemove(b: seq<Lancamento>, k: nat, t: Tipo)
    requires k < |b|
    ensures SumOf(b, t) == SumOf(b[..k] + b[k + 1..], t) + (if b[k].tipo == t then b[k].valor else 0.0)
  {
    assert b == (b[..k] + [b[k]]) + b[k + 1..];
    SumOfAppend(b[..k] + [b[k]], b[k + 1..], t);
    SumOfAppend(b[..k], [b[k]], t);
    SumOfAppend(b[..k], b[k + 1..], t);
    SumOfOne(b[k], t);
  }

  /** Taking the last element of a and an equal element of b out of two
      permutations leaves two permutations. */
  lemma RemoveMatching(a: seq<Lancamento>, b: seq<Lancamento>, k: nat)
    requires multiset(a) == multiset(b) && a != [] && k < |b| && b[k] == a[|a| - 1]
    ensures multiset(a[..|a| - 1]) == multiset(b[..k] + b[k + 1..])
  {
    var x := a[|a| - 1];
    assert a == a[..|a| - 1] + [x];
    assert b == b[..k] + [x] + b[k + 1..];
    assert multiset(b) == multiset(b[..k]) + multiset{x} + multiset(b[k + 1..]);
    assert multiset(a) == multiset(a[..|a| - 1]) + multiset{x};
    var rest := b[..k] + b[k + 1..];
    assert multiset(rest) == multiset(b[..k]) + multiset(b[k + 1..]);
    assert forall y :: multiset(a[..|a| - 1])[y] == multiset(rest)[y] by {
      forall y ensures multiset(a[..|a| - 1])[y] == multiset(rest)[y] {
        assert multiset(a)[y] == multiset(a[..|a| - 1])[y] + multiset{x}[y];
        assert multiset(b)[y] == multiset(rest)[y] + multiset{x}[y];
      }
    }
  }

  /** The sums depend only on the entries, not on their order. */
  lemma {:induction false} SumOfPermutation(a: seq<Lancamento>, b: seq<Lancamento>, t: Tipo)
    requires multiset(a) == multiset(b)
    ensures SumOf(a, t) == SumOf(b, t)
    decreases |a|
  {
    if a != [] {
      var x := a[|a| - 1];
      assert x in multiset(b) by {
        assert x in a;
      }
      var k :| 0 <= k < |b| && b[k] == x;
      RemoveMatching(a, b, k);
      SumOfPermutation(a[..|a| - 1], b[..k] + b[k + 1..], t);
      SumOfRemove(b, k, t);
    }
  }

  // ---------------------------------------------------------------- fetching

  /** The entries of the signed-in user, in the store's order. */
  function OfUser(store: seq<Lancamento>, uid: string): (r: seq<Lancamento>)
    ensures forall l :: l in r <==> l in store && l.userId == uid
    ensures multiset(r) <= multiset(store)
    ensures forall l :: multiset(r)[l] == if l.userId == uid then multiset(store)[l] else 0
  {
    if store == [] then []
    else
      var l := store[|store| - 1];
      assert store == store[..|store| - 1] + [l];
      OfUser(store[..|store| - 1], uid) + (if l.userId == uid then [l] else [])
  }

  /** `fetchLancamentos`: the user's entries, sorted in place by date, newest
      first. `time` stands for `new Date(data).getTime()`. */
  method FetchLancamentos(store: seq<Lancamento>, uid: string, time: string -> int)
    returns (lancamentos: seq<Lancamento>)
    ensures forall p, q :: 0 <= p < q < |lancamentos| ==> time(lancamentos[p].data) >= time(lancamentos[q].data)
    ensures multiset(lancamentos) == multiset(OfUser(store, uid))
  {
    var data := OfUser(store, uid);
    var a := new Lancamento[|data|](i requires 0 <= i < |data| => data[i]);
    assert a[..] == data;
    SortDesc(a, (l: Lancamento) => time(l.data));
    lancamentos := a[..];
  }

  /** The cards read the same whatever order the entries were fetched in:
      sorting changes neither the balance nor the sums. */
  lemma CardsIgnoreOrder(store: seq<Lancamento>, uid: string, lancamentos: seq<Lancamento>)
    requires multiset(lancamentos) == multiset(OfUser(store, uid))
    ensures Saldo(lancamentos) == Saldo(OfUser(store, uid))
    ensures SumOf(lancamentos, Receita) == SumOf(OfUser(store, uid), Receita)
    ensures SumOf(lancamentos, Despesa) == SumOf(OfUser(store, uid), Despesa)
  {
    var u := OfUser(store, uid);
    SumOfPermutation(lancamentos, u, Receita);
    SumOfPermutation(lancamentos, u, Despesa);
    SaldoIsIncomeLessExpense(lancamentos);
    SaldoIsIncomeLessExpense(u);
  }

  /** `fetchClientes`: the active clients, sorted by name with
      `localeCompare`; `collate` gives each name its place in that order. */
  method FetchClientes(ativos: seq<ClienteRef>, collate: string -> int) returns (clientes: seq<ClienteRef>)
    ensures forall p, q :: 0 <= p < q < |clientes| ==>
              collate(clientes[p].nomeFantasia) <= collate(clientes[q].nomeFantasia)
    ensures multiset(clientes) == multiset(ativos)
  {
    var a := new ClienteRef[|ativos|](i requires 0 <= i < |ativos| => ativos[i]);
    assert a[..] == ativos;
    SortDesc(a, (c: ClienteRef) => -collate(c.nomeFantasia));
    clientes := a[..];
  }

  // ---------------------------------------------------------------- new entry

  /** The form of the new-entry modal; `files` is the number of files
      chosen for the invoice. */
  datatype FormValues = FormValues(descricao: string, valor: real, tipo: Tipo, data: string,
                                   hasNf: bool, clienteId: string, files: nat)

  /** `clientes.find(c => c.id === id)`. */
  function FindCliente(clientes: seq<ClienteRef>, id: string): Option<ClienteRef>
  {
    Find(clientes, (c: ClienteRef) => c.id == id)
  }

  /** The name stored with the entry. */
  function ClienteNome(clientes: seq<ClienteRef>, id: string): string
  {
    match FindCliente(clientes, id)
    case Some(c) => c.nomeFantasia
    case None => "Sem Vínculo"
  }

  /** An invoice is uploaded only when the entry has one and a file was
      chosen. */
  predicate Uploads(data: FormValues)
  {
    data.hasNf && data.files > 0
  }

  /** `onSubmit`: `user` is the signed-in user, None when nobody is signed
      in; `downloadUrl` is the address the storage returns for the uploaded
      file, used only when there is an upload. Without a user nothing is
      uploaded and no entry is saved. */
  method OnSubmit(user: Option<string>, data: FormValues, clientes: seq<ClienteRef>, downloadUrl: string)
    returns (uploaded: bool, saved: Option<Lancamento>)
    ensures user.None? ==> !uploaded && saved.None?
    ensures user.Some? ==> saved.Some? && (uploaded <==> Uploads(data))
    ensures saved.Some? ==>
              var entry := saved.value;
              entry.nfUrl == (if Uploads(data) && downloadUrl != "" then Some(downloadUrl) else None)
              && entry.clienteNome == ClienteNome(clientes, data.clienteId)
              && entry.descricao == data.descricao && entry.valor == data.valor && entry.tipo == data.tipo
              && entry.data == data.data && entry.hasNf == data.hasNf && entry.clienteId == data.clienteId
              && Some(entry.userId) == user
  {
    uploaded, saved := false, None;
    if user.None? {
      return;
    }
    var url := "";
    if data.hasNf && data.files > 0 {
      uploaded := true;
      url := downloadUrl;
    }
    var clienteSelecionado := FindCliente(clientes, data.clienteId);
    saved := Some(Lancamento("", data.descricao, data.valor, data.tipo, data.data, data.hasNf,
                             OrNull(url), data.clienteId,
                             if clienteSelecionado.Some? then clienteSelecionado.value.nomeFantasia else "Sem Vínculo",
                             user.value));
  }

  /** The stored name is that of a client with the chosen id when one is
      listed, and "Sem Vínculo" exactly when none is. */
  lemma ClienteNomeSpec(clientes: seq<ClienteRef>, id: string)
    ensures (exists c :: c in clientes && c.id == id) ==>
              exists c :: c in clientes && c.id == id && ClienteNome(clientes, id) == c.nomeFantasia
    ensures (forall c :: c in clientes ==> c.id != id) ==> ClienteNome(clientes, id) == "Sem Vínculo"
  {
  }
}
