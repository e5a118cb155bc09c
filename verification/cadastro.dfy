/**
 * The step logic of the registration wizard (the Cadastro component): two
 * scenes, "detalhes" (account details) and "vincular" (link the hotel
 * account), a Back button that leaves the wizard from the first scene, and
 * a Next button guarded by a chain of validation checks.
 *
 * The component's `this.state` is the class's fields and `setState` is an
 * immediate assignment. The parent's scene switch is returned to the caller
 * and the imported e-mail check is a parameter.
 */
module CadastroWizard {
  import opened Wrappers

  const Detalhes: string := "detalhes"
  const Vincular: string := "vincular"
  /** The parent's scene for signing in, which Back hands over to. */
  const Entrar: string := "entrar"
  /** The value of the disabled "choose your hotel" option of the hotel select. */
  const HotelPlaceholder: string := "\U{1F1E9}\U{1F1EB}"

  // ---------------------------------------------------------------------
  // The user-name pattern /^[a-zA-Z0-9-._]{2,64}$/

  /** The character class [a-zA-Z0-9-._], range by range. */
  const NomeClass: seq<(char, char)> :=
    [('a', 'z'), ('A', 'Z'), ('0', '9'), ('-', '-'), ('.', '.'), ('_', '_')]

  /** Whether c lies in one of the class's ranges. */
  function InClass(c: char, ranges: seq<(char, char)>): (r: bool)
    ensures r <==> exists k :: 0 <= k < |ranges| && ranges[k].0 <= c <= ranges[k].1
  {
    if ranges == [] then false
    else (ranges[0].0 <= c <= ranges[0].1) || InClass(c, ranges[1..])
  }

  /** Whether every character of s lies in the class. */
  function AllInClass(s: string, ranges: seq<(char, char)>): (r: bool)
    ensures r <==> forall i :: 0 <= i < |s| ==> InClass(s[i], ranges)
  {
    if s == [] then true
    else InClass(s[0], ranges) && AllInClass(s[1..], ranges)
  }

  /** An anchored `^[class]{lo,hi}$` test: between lo and hi characters, all in the class. */
  function MatchesBounded(s: string, ranges: seq<(char, char)>, lo: nat, hi: nat): bool
  {
    lo <= |s| <= hi && AllInClass(s, ranges)
  }

  /** The user-name test of the Next button. */
  function NomeValido(nome: string): bool
  {
    MatchesBounded(nome, NomeClass, 2, 64)
  }

  /** An ASCII letter, an ASCII digit, '-', '.' or '_'. */
  predicate IsNomeChar(c: char)
  {
    ('a' <= c <= 'z') || ('A' <= c <= 'Z') || ('0' <= c <= '9') || c == '-' || c == '.' || c == '_'
  }

  /** A user name passes iff it has 2 to 64 characters, each a letter, a digit, '-', '.' or '_'. */
  lemma NomeValidoIff(nome: string)
    ensures NomeValido(nome) <==> 2 <= |nome| <= 64 && forall i :: 0 <= i < |nome| ==> IsNomeChar(nome[i])
  {
  }

  /** The guard of the details scene: every check of the chain passes. */
  predicate DetalhesCompletos(nome: string, email: string, senha: string, reSenha: string,
                              termos: bool, validateEmail: string -> bool)
  {
    nome != "" && NomeValido(nome) && email != "" && validateEmail(email)
    && senha != "" && reSenha != "" && senha == reSenha && termos
  }

  /**
   * The "hotel not selected" test of the linking scene as written,
   * `hotel !== null || hotel !== placeholder`: no value differs from
   * neither, so it always holds.
   */
  function HotelNaoSelecionado(hotel: Option<string>): (r: bool)
    ensures r
  {
    hotel != None || hotel != Some(HotelPlaceholder)
  }

  /** The branches of Next in the linking scene, in the order they are tried. */
  datatype VincularBranch = HotelMissing | NotVerified | SignIn

  /** The branch Next takes in the linking scene. */
  function VincularStep(hotel: Option<string>, verificado: bool): VincularBranch
  {
    if HotelNaoSelecionado(hotel) then HotelMissing
    else if !verificado then NotVerified
    else SignIn
  }

  /**
   * Because the hotel test always holds, Next in the linking scene always
   * takes its first branch: the verification test and the sign-in branch
   * are never reached, whatever hotel is chosen and whether or not the user
   * is verified.
   */
  lemma SignInUnreachable(hotel: Option<string>, verificado: bool)
    ensures VincularStep(hotel, verificado) == HotelMissing
    ensures VincularStep(hotel, verificado) != NotVerified && VincularStep(hotel, verificado) != SignIn
  {
  }

  /** The component's state, as one value. */
  datatype Snapshot = Snapshot(
    cena: string, nome: string, email: string, senha: string, reSenha: string,
    termos: bool, hotel: Option<string>, verificado: bool)

  class Cadastro {
    var cena: string
    var nome: string
    var email: string
    var senha: string
    var reSenha: string
    var termos: bool
    var hotel: Option<string>
    var verificado: bool

    function State(): Snapshot
      reads this
    {
      Snapshot(cena, nome, email, senha, reSenha, termos, hotel, verificado)
    }

    /** The wizard shows one of its two scenes. */
    predicate Valid()
      reads this
    {
      cena == Detalhes || cena == Vincular
    }

    /** The initial state: the details scene, empty fields, terms unticked, no hotel, unverified. */
    constructor ()
      ensures Valid()
      ensures State() == Snapshot(Detalhes, "", "", "", "", false, None, false)
    {
      cena, nome, email, senha, reSenha := Detalhes, "", "", "", "";
      termos, hotel, verificado := false, None, false;
    }

    /** mudarCena: sets the scene and nothing else. */
    method MudarCena(novaCena: string)
      modifies this
      ensures State() == old(State()).(cena := novaCena)
      ensures Valid() <==> novaCena == Detalhes || novaCena == Vincular
    {
      cena := novaCena;
    }

    /**
     * voltar: from the details scene, ask the parent for its sign-in scene
     * (the result) and change nothing; from the linking scene, go back to
     * the details scene.
     */
    method Voltar() returns (parentCena: Option<string>)
      modifies this
      ensures old(cena) == Detalhes ==> parentCena == Some(Entrar) && State() == old(State())
      ensures old(cena) == Vincular ==> parentCena == None && State() == old(State()).(cena := Detalhes)
      ensures old(cena) != Detalhes && old(cena) != Vincular ==> parentCena == None && State() == old(State())
      ensures old(Valid()) ==> Valid()
    {
      parentCena := None;
      if cena == Detalhes {
        parentCena := Some(Entrar);
      } else if cena == Vincular {
        MudarCena(Detalhes);
      }
    }

    /**
     * proximo: from the details scene, move on to the linking scene exactly
     * when every check passes; otherwise, and in the linking scene always,
     * nothing changes.
     */
    method Proximo(validateEmail: string -> bool)
      modifies this
      ensures old(cena) == Detalhes
        && DetalhesCompletos(old(nome), old(email), old(senha), old(reSenha), old(termos), validateEmail)
        ==> State() == old(State()).(cena := Vincular)
      ensures !(old(cena) == Detalhes
        && DetalhesCompletos(old(nome), old(email), old(senha), old(reSenha), old(termos), validateEmail))
        ==> State() == old(State())
      ensures old(cena) == Vincular ==> State() == old(State())
      ensures old(Valid()) ==> Valid()
    {
      if cena == Detalhes {
        if nome == "" {
          // empty user name
        } else if !NomeValido(nome) {
          // user name outside the pattern
        } else if email == "" {
          // empty e-mail
        } else if !validateEmail(email) {
          // not an e-mail address
        } else if senha == "" {
          // empty password
        } else if reSenha == "" {
          // empty repeated password
        } else if senha != reSenha {
          // the passwords differ
        } else if !termos {
          // terms not accepted
        } else {
          MudarCena(Vincular);
        }
      } else if cena == Vincular {
        match VincularStep(hotel, verificado)
        case HotelMissing =>
          // hotel not selected
        case NotVerified =>
          // user not verified
        case SignIn =>
          // sign-in
      }
    }

    /** handleInputNome: sets the user name and nothing else. */
    method HandleInputNome(value: string)
      modifies this
      ensures State() == old(State()).(nome := value)
    {
      nome := value;
    }

    /** handleInputEmail: sets the e-mail and nothing else. */
    method HandleInputEmail(value: string)
      modifies this
      ensures State() == old(State()).(email := value)
    {
      email := value;
    }

    /** handleInputSenha: sets the password and nothing else. */
    method HandleInputSenha(value: string)
      modifies this
      ensures State() == old(State()).(senha := value)
    {
      senha := value;
    }

    /** handleInputReSenha: sets the repeated password and nothing else. */
    method HandleInputReSenha(value: string)
      modifies this
      ensures State() == old(State()).(reSenha := value)
    {
      reSenha := value;
    }

    /** handleInputTermos: sets the terms checkbox and nothing else. */
    method HandleInputTermos(checked: bool)
      modifies this
      ensures State() == old(State()).(termos := checked)
    {
      termos := checked;
    }

    /** handleSelectHotel: sets the chosen hotel and nothing else. */
    method HandleSelectHotel(value: string)
      modifies this
      ensures State() == old(State()).(hotel := Some(value))
    {
      hotel := Some(value);
    }
  }

  /**
   * However the hotel is chosen, Next in the linking scene changes nothing:
   * the wizard can never get past that scene.
   */
  method VincularNeverAdvances(c: Cadastro, hotel: string, validateEmail: string -> bool)
    requires c.cena == Vincular
    modifies c
    ensures c.State() == old(c.State()).(hotel := Some(hotel))
  {
    c.HandleSelectHotel(hotel);
    c.Proximo(validateEmail);
  }
}
