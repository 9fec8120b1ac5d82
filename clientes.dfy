/** The clients page (pages/Clientes.tsx): the client list newest first,
    the CNPJ lookup that fills the form from the public registry's answer,
    and the payload saved from the form. */
module Clientes {
  import opened Common
  import opened Utils
  import opened Sorting

  datatype Status = Ativo | Pendente | Inativo

  /** The form's fields. */
  datatype FormValues = FormValues(cnpj: string, razaoSocial: string, nomeFantasia: string,
                                   telefone: string, email: string, atividadePrincipal: string,
                                   optanteSimples: bool, enderecoCompleto: string, dataAbertura: string,
                                   situacaoCadastral: string, naturezaJuridica: string, status: Status)

  /** The answer of the CNPJ lookup; every part may be missing. */
  datatype Phone = Phone(area: string, number: string)
  datatype Activity = Activity(id: string, text: string)
  datatype Address = Address(street: Option<string>, number: Option<string>, details: Option<string>,
                             district: Option<string>, city: Option<string>, state: Option<string>,
                             zip: Option<string>)
  datatype Nature = Nature(id: Option<int>, text: Option<string>)
  datatype Company = Company(name: Option<string>, size: Option<Option<string>>, nature: Option<Nature>)
  datatype CnpjApiResult = CnpjApiResult(alias: Option<string>, founded: Option<string>,
                                         statusText: Option<Option<string>>, simplesOptant: Option<Option<bool>>,
                                         phones: Option<seq<Phone>>, emails: Option<seq<string>>,
                                         mainActivity: Option<Activity>, address: Option<Address>,
                                         company: Option<Company>)

  /** What `window.api.fetchCnpj` answered. */
  datatype FetchResult = FetchResult(success: bool, data: Option<CnpjApiResult>, error: Option<string>)

  // ---------------------------------------------------------------- JS values

  /** A string is truthy when it is present and not empty. */
  predicate Truthy(s: Option<string>)
  {
    s.Some? && s.value != ""
  }

  /** `a || b` on strings: the first value when it is truthy, else the
      fallback; the result is empty only when both are. */
  function OrElse(a: Option<string>, b: string): (r: string)
    ensures r == b || (a.Some? && r == a.value)
    ensures r == "" <==> !Truthy(a) && b == ""
    ensures Truthy(a) ==> r == a.value
  {
    if a.Some? && a.value != "" then a.value else b
  }

  /** A string interpolated in a template: a missing one reads "undefined". */
  function Interp(s: Option<string>): string
  {
    if s.Some? then s.value else "undefined"
  }

  // ---------------------------------------------------------------- mapping

  function CompanyName(d: CnpjApiResult): Option<string>
  {
    if d.company.Some? then d.company.value.name else None
  }

  /** `d.company?.size?.acronym`. */
  function Acronym(d: CnpjApiResult): Option<string>
  {
    if d.company.Some? && d.company.value.size.Some? then d.company.value.size.value else None
  }

  /** `d.company?.nature?.id`. */
  function NatureId(d: CnpjApiResult): Option<int>
  {
    if d.company.Some? && d.company.value.nature.Some? then d.company.value.nature.value.id else None
  }

  function NatureText(d: CnpjApiResult): Option<string>
  {
    if d.company.Some? && d.company.value.nature.Some? then d.company.value.nature.value.text else None
  }

  /** The registry says the company opted for the Simples, or it is a
      micro-enterprise ('ME'), or an individual entrepreneur (legal nature
      2135). */
  predicate IsOptant(d: CnpjApiResult)
  {
    d.simplesOptant == Some(Some(true)) || Acronym(d) == Some("ME") || NatureId(d) == Some(2135)
  }

  /** The address line: street, number, " - details" only when there are
      details, district, "city - state", zip. */
  function AddressLine(a: Address): string
  {
    StreetPart(a) + (if Truthy(a.details) then " - " + a.details.value else "") + PlacePart(a)
  }

  function StreetPart(a: Address): string
  {
    Interp(a.street) + ", " + Interp(a.number)
  }

  function PlacePart(a: Address): string
  {
    ", " + Interp(a.district) + ", " + Interp(a.city) + " - " + Interp(a.state) + ", " + Interp(a.zip)
  }

  /** Empty details print exactly as no details; real details insert
      " - " and themselves right after the number, and change nothing else. */
  lemma AddressDetails(a: Address)
    ensures !Truthy(a.details) ==> AddressLine(a) == AddressLine(a.(details := None))
    ensures Truthy(a.details) ==>
              var x := AddressLine(a.(details := None));
              var k := |Interp(a.street)| + 2 + |Interp(a.number)|;
              k <= |x| && AddressLine(a) == x[..k] + " - " + a.details.value + x[k..]
  {
    var head, tail := StreetPart(a), PlacePart(a);
    var x := AddressLine(a.(details := None));
    assert x == head + "" + tail;
    assert x == head + tail;
    assert |head| == |Interp(a.street)| + 2 + |Interp(a.number)|;
    if Truthy(a.details) {
      assert x[..|head|] == head && x[|head|..] == tail;
    }
  }

  /** The lookup is made only for a CNPJ of at least fourteen characters. */
  predicate Looks(cnpj: string)
  {
    cnpj != "" && |cnpj| >= 14
  }

  /** The form after a successful lookup answered d: each field is set
      only from the part of the answer it comes from, the others keep their
      values. */
  function Filled(v: FormValues, d: CnpjApiResult, localeDate: string -> string): FormValues
  {
    v.(razaoSocial := OrElse(CompanyName(d), ""),
       nomeFantasia := OrElse(d.alias, OrElse(CompanyName(d), "")),
       telefone := if d.phones.Some? && |d.phones.value| > 0
                   then d.phones.value[0].area + " " + d.phones.value[0].number else v.telefone,
       email := if d.emails.Some? && |d.emails.value| > 0 then d.emails.value[0] else v.email,
       atividadePrincipal := if d.mainActivity.Some?
                             then d.mainActivity.value.id + " - " + d.mainActivity.value.text
                             else v.atividadePrincipal,
       optanteSimples := IsOptant(d),
       enderecoCompleto := if d.address.Some? then AddressLine(d.address.value) else v.enderecoCompleto,
       dataAbertura := if Truthy(d.founded) then localeDate(d.founded.value) else v.dataAbertura,
       situacaoCadastral := OrElse(if d.statusText.Some? then d.statusText.value else None, ""),
       naturezaJuridica := OrElse(NatureText(d), ""))
  }

  /** What the lookup writes: the legal name or ''; the trade name, else
      the legal name, else ''; phone and e-mail from the first element of a
      non-empty list, and otherwise the typed value stays (so does the
      activity without one, and the opening date without a truthy one); the Simples flag exactly when the
      registry reports the option, an 'ME' size or the individual
      entrepreneur nature, even if the option itself is reported false; the
      CNPJ and the status are never touched. */
  lemma FilledSpec(v: FormValues, d: CnpjApiResult, localeDate: string -> string)
    ensures var f := Filled(v, d, localeDate);
            f.cnpj == v.cnpj && f.status == v.status
            && (Truthy(CompanyName(d)) ==> f.razaoSocial == CompanyName(d).value)
            && (!Truthy(CompanyName(d)) ==> f.razaoSocial == "")
            && (Truthy(d.alias) ==> f.nomeFantasia == d.alias.value)
            && (!Truthy(d.alias) ==> f.nomeFantasia == f.razaoSocial)
            && ((d.phones.None? || d.phones.value == []) ==> f.telefone == v.telefone)
            && (d.phones.Some? && d.phones.value != [] ==>
                  f.telefone == d.phones.value[0].area + " " + d.phones.value[0].number)
            && ((d.emails.None? || d.emails.value == []) ==> f.email == v.email)
            && (d.emails.Some? && d.emails.value != [] ==> f.email == d.emails.value[0])
            && (d.mainActivity.None? ==> f.atividadePrincipal == v.atividadePrincipal)
            && (!Truthy(d.founded) ==> f.dataAbertura == v.dataAbertura)
            && (f.optanteSimples <==> d.simplesOptant == Some(Some(true)) || Acronym(d) == Some("ME")
                                      || NatureId(d) == Some(2135))
            && (d.simplesOptant == Some(Some(false)) && Acronym(d) == Some("ME") ==> f.optanteSimples)
            && (d.address.None? ==> f.enderecoCompleto == v.enderecoCompleto)
  {
  }

  class Form {
    var values: FormValues

    constructor (v: FormValues)
      ensures values == v
    {
      values := v;
    }

    /** `handleFetchCnpj`. `fetched` is the lookup's answer, None when the
        call threw; `localeDate` stands for
        `new Date(founded).toLocaleDateString('pt-BR')`. */
    method FetchCnpj(fetched: Option<FetchResult>, localeDate: string -> string)
      returns (alert: Option<string>)
      modifies this
      ensures !Looks(old(values.cnpj)) ==> values == old(values) && alert == None
      ensures Looks(old(values.cnpj)) && fetched.None? ==>
                values == old(values) && alert == Some("Falha na comunicação.")
      ensures Looks(old(values.cnpj)) && fetched.Some? && !(fetched.value.success && fetched.value.data.Some?) ==>
                values == old(values) && alert == Some(OrElse(fetched.value.error, "Erro ao buscar CNPJ."))
      ensures Looks(old(values.cnpj)) && fetched.Some? && fetched.value.success && fetched.value.data.Some? ==>
                alert == None && values == Filled(old(values), fetched.value.data.value, localeDate)
    {
      var cnpj := values.cnpj;
      if cnpj == "" || |cnpj| < 14 {
        return None;
      }
      if fetched.None? {
        return Some("Falha na comunicação.");
      }
      var result := fetched.value;
      if !(result.success && result.data.Some?) {
        return Some(OrElse(result.error, "Erro ao buscar CNPJ."));
      }
      alert := None;
      var d := result.data.value;
      var v := values;
      var razaoSocial := OrElse(CompanyName(d), "");
      var nomeFantasia := OrElse(d.alias, OrElse(CompanyName(d), ""));
      var telefone, email, atividade := v.telefone, v.email, v.atividadePrincipal;
      if d.phones.Some? && |d.phones.value| > 0 {
        telefone := d.phones.value[0].area + " " + d.phones.value[0].number;
      }
      if d.emails.Some? && |d.emails.value| > 0 {
        email := d.emails.value[0];
      }
      if d.mainActivity.Some? {
        atividade := d.mainActivity.value.id + " - " + d.mainActivity.value.text;
      }
      var optant := d.simplesOptant.Some? && d.simplesOptant.value == Some(true);
      if !optant {
        var isMei := Acronym(d) == Some("ME");
        var isIndividual := NatureId(d) == Some(2135);
        if isMei || isIndividual {
          optant := true;
        }
      }
      var endereco, dataAbertura := v.enderecoCompleto, v.dataAbertura;
      if d.address.Some? {
        endereco := AddressLine(d.address.value);
      }
      if d.founded.Some? && d.founded.value != "" {
        dataAbertura := localeDate(d.founded.value);
      }
      var situacao := OrElse(if d.statusText.Some? then d.statusText.value else None, "");
      var natureza := OrElse(NatureText(d), "");
      values := FormValues(v.cnpj, razaoSocial, nomeFantasia, telefone, email, atividade, optant,
                           endereco, dataAbertura, situacao, natureza, v.status);
    }
  }

  /** `{ ...data, cnpj: formatCnpj(data.cnpj) }`. */
  function Payload(data: FormValues): (p: FormValues)
  {
    data.(cnpj := FormatCnpj(data.cnpj))
  }

  /** Saving changes only the CNPJ, and saving a saved client again changes
      nothing: a CNPJ with at least fourteen digits is stored in the shape
      DD.DDD.DDD/DDDD-DD, any other is stored as typed. */
  lemma {:induction false} PayloadSpec(data: FormValues)
    ensures Payload(data).(cnpj := data.cnpj) == data
    ensures Payload(Payload(data)) == Payload(data)
    ensures |Digits(data.cnpj)| >= 14 ==> Shaped(Payload(data).cnpj)
    ensures |Digits(data.cnpj)| < 14 ==> Payload(data) == data
  {
    FormatCnpjIdempotent(data.cnpj);
    FormatCnpjSpec(data.cnpj);
  }

  /** A stored client; `createdAt` is its creation time in milliseconds. */
  datatype Cliente = Cliente(id: string, values: FormValues, createdAt: int, userId: string)

  function OfUser(store: seq<Cliente>, uid: string): (r: seq<Cliente>)
    ensures forall c :: c in r <==> c in store && c.userId == uid
    ensures forall c :: multiset(r)[c] == if c.userId == uid then multiset(store)[c] else 0
  {
    if store == [] then []
    else
      var c := store[|store| - 1];
      assert store == store[..|store| - 1] + [c];
      OfUser(store[..|store| - 1], uid) + (if c.userId == uid then [c] else [])
  }

  /** `fetchClientes`: the user's clients, newest first. */
  method FetchClientes(store: seq<Cliente>, uid: string) returns (clientes: seq<Cliente>)
    ensures forall p, q :: 0 <= p < q < |clientes| ==> clientes[p].createdAt >= clientes[q].createdAt
    ensures multiset(clientes) == multiset(OfUser(store, uid))
  {
    var data := OfUser(store, uid);
    var a := new Cliente[|data|](i requires 0 <= i < |data| => data[i]);
    assert a[..] == data;
    SortDesc(a, (c: Cliente) => c.createdAt);
    clientes := a[..];
  }
}
