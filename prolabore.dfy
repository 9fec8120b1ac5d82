/** The pro-labore page (pages/ProLabore.tsx): the INSS and net amounts
    computed from the base salary and the rate typed in the form, and the
    batch that writes one pro-labore record per active client for the
    current month. */
module ProLabore {
  import opened Common

  /** The form's defaults. */
  const DefaultBase: real := 1412.00
  const DefaultInss: real := 11.0

  /** `Number(watch(field) || 0)`: an empty field (None) counts as 0. */
  function FieldValue(v: Option<real>): (x: real)
    ensures v.None? ==> x == 0.0
    ensures v.Some? ==> x == v.value
  {
    if v.Some? then v.value else 0.0
  }

  /** `calcInss`: the rate is a percentage of the base. */
  function CalcInss(base: real, inss: real): real
  {
    (base * inss) / 100.0
  }

  /** `liquido`: the base less the INSS. */
  function Liquido(base: real, inss: real): real
  {
    base - CalcInss(base, inss)
  }

  /** The INSS and the net always add up to the base; with a base that is
      not negative and a rate between 0 and 100, both lie between 0 and the
      base, and a higher rate never gives a higher net. */
  lemma {:induction false} SplitOfBase(base: real, inss: real)
    ensures CalcInss(base, inss) + Liquido(base, inss) == base
    ensures base >= 0.0 && 0.0 <= inss <= 100.0 ==>
              0.0 <= CalcInss(base, inss) <= base && 0.0 <= Liquido(base, inss) <= base
    ensures forall inss' :: base >= 0.0 && inss <= inss' ==> Liquido(base, inss') <= Liquido(base, inss)
  {
    if base >= 0.0 && 0.0 <= inss <= 100.0 {
      assert base * inss <= base * 100.0;
    }
    forall inss' | base >= 0.0 && inss <= inss' ensures Liquido(base, inss') <= Liquido(base, inss) {
      assert base * inss <= base * inss';
    }
  }

  /** With the defaults, 11% of R$ 1412.00 is R$ 155.32 and the net is
      R$ 1256.68; an empty form gives zero for both. */
  lemma DefaultAmounts()
    ensures CalcInss(DefaultBase, DefaultInss) == 155.32
    ensures Liquido(DefaultBase, DefaultInss) == 1256.68
    ensures CalcInss(FieldValue(None), FieldValue(None)) == 0.0 && Liquido(FieldValue(None), FieldValue(None)) == 0.0
  {
  }

  /** An active client as read from the snapshot. */
  datatype Cliente = Cliente(id: string, nomeFantasia: string, cnpj: string)

  /** A record of the batch (its `geradoEm` timestamp is not modelled). */
  datatype Registro = Registro(clienteId: string, nomeFantasia: string, cnpj: string, mesAno: string,
                               salarioMinimo: real, inssPerc: real, valorInss: real,
                               valorLiquido: real, userId: string)

  /** The amounts the page computes once from the form and writes into
      every record. */
  datatype Amounts = Amounts(base: real, inss: real, valorInss: real, valorLiquido: real)

  function AmountsOf(base: real, inss: real): (a: Amounts)
    ensures a.base == base && a.inss == inss
  {
    Amounts(base, inss, CalcInss(base, inss), Liquido(base, inss))
  }

  /** The record `batch.set` writes for one client. */
  function RecordFor(c: Cliente, mesAno: string, a: Amounts, uid: string): Registro
  {
    Registro(c.id, c.nomeFantasia, c.cnpj, mesAno, a.base, a.inss, a.valorInss, a.valorLiquido, uid)
  }

  /** The records of the batch for the given clients, in order. */
  function Records(clients: seq<Cliente>, mesAno: string, a: Amounts, uid: string): seq<Registro>
  {
    if clients == [] then []
    else Records(clients[..|clients| - 1], mesAno, a, uid) + [RecordFor(clients[|clients| - 1], mesAno, a, uid)]
  }

  /** One record per client, in the snapshot's order, each carrying its
      client's id, name and CNPJ and the same month, base, rate, INSS, net
      and user. */
  lemma {:induction false} RecordsSpec(clients: seq<Cliente>, mesAno: string, base: real, inss: real, uid: string)
    ensures var rs := Records(clients, mesAno, AmountsOf(base, inss), uid);
            |rs| == |clients|
            && forall i :: 0 <= i < |rs| ==>
                 rs[i].clienteId == clients[i].id && rs[i].nomeFantasia == clients[i].nomeFantasia
                 && rs[i].cnpj == clients[i].cnpj && rs[i].mesAno == mesAno && rs[i].userId == uid
                 && rs[i].salarioMinimo == base && rs[i].inssPerc == inss
                 && rs[i].valorInss + rs[i].valorLiquido == base && rs[i].valorInss == base * inss / 100.0
    decreases |clients|
  {
    RecordsFields(clients, mesAno, AmountsOf(base, inss), uid);
    SplitOfBase(base, inss);
  }

  lemma {:induction false} RecordsFields(clients: seq<Cliente>, mesAno: string, a: Amounts, uid: string)
    ensures var rs := Records(clients, mesAno, a, uid);
            |rs| == |clients|
            && forall i :: 0 <= i < |rs| ==> rs[i] == RecordFor(clients[i], mesAno, a, uid)
    decreases |clients|
  {
    if clients != [] {
      RecordsFields(clients[..|clients| - 1], mesAno, a, uid);
    }
  }

  /** The loop over the snapshot that adds one `batch.set` per client. */
  method Batch(clients: seq<Cliente>, mesAno: string, a: Amounts, uid: string)
    returns (batch: seq<Registro>)
    ensures batch == Records(clients, mesAno, a, uid)
  {
    batch := [];
    for i := 0 to |clients|
      invariant batch == Records(clients[..i], mesAno, a, uid)
    {
      assert clients[..i + 1][..i] == clients[..i];
      batch := batch + [RecordFor(clients[i], mesAno, a, uid)];
    }
    assert clients[..|clients|] == clients;
  }

  datatype Outcome =
    | NotSignedIn
    | NoActiveClients
    | Declined
    | Written(records: seq<Registro>)
    | Failed

  const NoClientsAlert: string := "Nenhum cliente ativo encontrado para gerar pró-labore."
  const FailedAlert: string := "Erro ao processar as folhas."

  function Prompt(mesAno: string): string
  {
    "Já existem pró-labores gerados para " + mesAno + ". Deseja gerar novamente?"
  }

  /** `handleGenerateValues`. `user` is the signed-in user's id,
      `activeClients` the snapshot of their active clients, `existing`
      whether records for the month already exist, `confirmed` the answer to
      the prompt and `commitOk` whether the batch commit succeeded. */
  method HandleGenerateValues(user: Option<string>, activeClients: seq<Cliente>, existing: bool,
                              confirmed: bool, commitOk: bool, mesAno: string,
                              baseField: Option<real>, inssField: Option<real>)
    returns (outcome: Outcome, prompt: Option<string>, alert: Option<string>)
    ensures user.None? ==> outcome == NotSignedIn && prompt == None && alert == None
    ensures user.Some? && activeClients == [] ==>
              outcome == NoActiveClients && prompt == None && alert == Some(NoClientsAlert)
    ensures user.Some? && activeClients != [] ==>
              prompt == (if existing then Some(Prompt(mesAno)) else None)
    ensures user.Some? && activeClients != [] && existing && !confirmed ==> outcome == Declined && alert == None
    ensures user.Some? && activeClients != [] && (!existing || confirmed) ==>
              if commitOk
              then outcome == Written(Records(activeClients, mesAno, AmountsOf(FieldValue(baseField),
                                              FieldValue(inssField)), user.value)) && alert == None
              else outcome == Failed && alert == Some(FailedAlert)
  {
    prompt, alert := None, None;
    if user.None? {
      outcome := NotSignedIn;
    } else if activeClients == [] {
      outcome, alert := NoActiveClients, Some(NoClientsAlert);
    } else {
      if existing {
        prompt := Some(Prompt(mesAno));
      }
      if existing && !confirmed {
        outcome := Declined;
      } else {
        var amounts := AmountsOf(FieldValue(baseField), FieldValue(inssField));
        var batch := Batch(activeClients, mesAno, amounts, user.value);
        if commitOk {
          outcome := Written(batch);
        } else {
          outcome, alert := Failed, Some(FailedAlert);
        }
      }
    }
  }
}
