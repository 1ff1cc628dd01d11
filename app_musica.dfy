/**
 * The music-app domain: songs and their reviews, albums, artists, playlists
 * and users. Every class lives in this one module because the classes refer
 * to each other (a review names its song and its reviewer, a user holds
 * playlists of songs). Java references become Dafny references, so `==`
 * between them is identity, as in Java; Java strings are objects too, and
 * are modelled by JavaString so that comparing them with `==` stays identity.
 */
module AppMusica {
  import opened Wrappers

  /** A Java string object: its characters, and an identity of its own. */
  class JavaString {
    const chars: string

    constructor (chars: string)
      ensures this.chars == chars
    {
      this.chars := chars;
    }
  }

  /** A java.sql.Date, which the domain only stores and hands back. */
  class Date {
    const millis: int

    constructor (millis: int)
      ensures this.millis == millis
    {
      this.millis := millis;
    }
  }

  // ---------------------------------------------------------------
  // Sequence specifications
  // ---------------------------------------------------------------

  /** The index of the first occurrence of x in s, or |s| when there is none. */
  function FirstIndex<T(==)>(s: seq<T>, x: T): (i: nat)
    ensures i <= |s|
    ensures i < |s| ==> s[i] == x
    ensures forall k :: 0 <= k < i ==> s[k] != x
    decreases |s|
  {
    if s == [] then 0
    else if s[0] == x then 0
    else
      var i := FirstIndex(s[1..], x);
      assert forall k :: 1 <= k < 1 + i ==> s[k] == s[1..][k - 1];
      1 + i
  }

  /** s without the first occurrence of x; s itself when x does not occur. */
  function RemoveFirst<T(==)>(s: seq<T>, x: T): seq<T>
  {
    var i := FirstIndex(s, x);
    if i < |s| then s[..i] + s[i + 1..] else s
  }

  /** With i the first index of x, the removal is s[..i] + s[i + 1..]. */
  lemma RemoveFirstShape<T>(s: seq<T>, x: T, i: nat)
    requires i == FirstIndex(s, x) && i < |s|
    ensures |RemoveFirst(s, x)| == |s| - 1
    ensures forall k :: 0 <= k < i ==> s[k] != x && RemoveFirst(s, x)[k] == s[k]
    ensures forall k :: i <= k < |s| - 1 ==> RemoveFirst(s, x)[k] == s[k + 1]
  {
    var r := s[..i] + s[i + 1..];
    assert RemoveFirst(s, x) == r;
    forall k | 0 <= k < i ensures r[k] == s[k] {
      assert r[k] == s[..i][k];
    }
    forall k | i <= k < |s| - 1 ensures r[k] == s[k + 1] {
      assert r[k] == s[i + 1..][k - i];
    }
  }

  lemma DropAtCount<T>(s: seq<T>, i: nat)
    requires i < |s|
    ensures multiset(s[..i] + s[i + 1..]) == multiset(s) - multiset{s[i]}
  {
    var a, b := s[..i], s[i + 1..];
    assert s == a + [s[i]] + b;
    assert multiset(s) == multiset(a) + multiset{s[i]} + multiset(b);
    assert multiset(a + b) == multiset(a) + multiset(b);
  }

  lemma RemoveFirstCount<T>(s: seq<T>, x: T, i: nat)
    requires i == FirstIndex(s, x) && i < |s|
    ensures multiset(RemoveFirst(s, x)) == multiset(s) - multiset{x}
  {
    var r := s[..i] + s[i + 1..];
    assert RemoveFirst(s, x) == r;
    assert s[i] == x;
    DropAtCount(s, i);
    assert multiset(r) == multiset(s) - multiset{x};
  }

  /**
   * Removing an element that occurs drops exactly its first occurrence: one
   * element fewer, one occurrence of x fewer, every other element kept in
   * order. Removing one that does not occur changes nothing.
   */
  lemma RemoveFirstSpec<T>(s: seq<T>, x: T)
    ensures x !in s ==> RemoveFirst(s, x) == s
    ensures x in s ==>
      var i := FirstIndex(s, x);
      |RemoveFirst(s, x)| == |s| - 1 &&
      (forall k :: 0 <= k < i ==> s[k] != x && RemoveFirst(s, x)[k] == s[k]) &&
      (forall k :: i <= k < |s| - 1 ==> RemoveFirst(s, x)[k] == s[k + 1])
    ensures multiset(RemoveFirst(s, x)) == multiset(s) - multiset{x}
  {
    var i := FirstIndex(s, x);
    if i < |s| {
      assert x in s;
      RemoveFirstShape(s, x, i);
      RemoveFirstCount(s, x, i);
    } else {
      assert x !in s;
    }
  }

  /**
   * Appending x and then removing x gives back the original sequence when x
   * was absent; otherwise the original occurrence goes and the new one stays.
   */
  lemma AddThenRemove<T>(s: seq<T>, x: T)
    ensures x !in s ==> RemoveFirst(s + [x], x) == s
    ensures x in s ==> RemoveFirst(s + [x], x) == RemoveFirst(s, x) + [x]
  {
    var i := FirstIndex(s, x);
    var t := s + [x];
    assert forall k :: 0 <= k < |s| ==> t[k] == s[k];
    if i < |s| {
      assert FirstIndex(t, x) == i;
      assert t[i + 1..] == s[i + 1..] + [x];
    } else {
      assert x !in s && t[|s|] == x;
      assert FirstIndex(t, x) == |s|;
      assert t[..|s|] == s;
    }
  }

  // ---------------------------------------------------------------
  // Reviews and songs
  // ---------------------------------------------------------------

  /** A review: a star count, by a reviewer, of a song. It has no setter; stars are not range-checked. */
  class Avaliacao {
    const estrelas: int
    const revisor: Usuario?
    const musica: Musica?

    constructor (estrelas: int, revisor: Usuario?, musica: Musica?)
      ensures this.estrelas == estrelas && this.revisor == revisor && this.musica == musica
    {
      this.estrelas := estrelas;
      this.revisor := revisor;
      this.musica := musica;
    }

    /** The star count the review was built with. */
    method GetEstrelas() returns (r: int)
      ensures r == estrelas
    {
      r := estrelas;
    }

    /** The reviewer the review was built with. */
    method GetRevisor() returns (r: Usuario?)
      ensures r == revisor
    {
      r := revisor;
    }
  }

  /** The last review in avs whose reviewer is u, or null when u reviewed nothing. */
  function LastReviewBy(avs: seq<Avaliacao>, u: Usuario?): Avaliacao?
    decreases |avs|
  {
    if avs == [] then null
    else if avs[|avs| - 1].revisor == u then avs[|avs| - 1]
    else LastReviewBy(avs[..|avs| - 1], u)
  }

  /**
   * The lookup is null exactly when no review is by u; otherwise it is a
   * review by u with no review by u after it.
   */
  lemma {:induction false} LastReviewBySpec(avs: seq<Avaliacao>, u: Usuario?)
    ensures LastReviewBy(avs, u) == null <==> forall i :: 0 <= i < |avs| ==> avs[i].revisor != u
    ensures LastReviewBy(avs, u) != null ==>
      exists i :: 0 <= i < |avs| && avs[i] == LastReviewBy(avs, u) && avs[i].revisor == u &&
        forall j :: i < j < |avs| ==> avs[j].revisor != u
    decreases |avs|
  {
    if avs != [] {
      var n := |avs|;
      var front := avs[..n - 1];
      LastReviewBySpec(front, u);
      if avs[n - 1].revisor != u {
        assert forall i :: 0 <= i < n - 1 ==> front[i] == avs[i];
        if LastReviewBy(front, u) != null {
          var i :| 0 <= i < n - 1 && front[i] == LastReviewBy(front, u) && front[i].revisor == u &&
            forall j :: i < j < n - 1 ==> front[j].revisor != u;
          assert avs[i] == LastReviewBy(avs, u);
        }
      }
    }
  }

  /** A newly appended review is what the lookup finds for its reviewer. */
  lemma NewestReviewWins(avs: seq<Avaliacao>, a: Avaliacao)
    ensures LastReviewBy(avs + [a], a.revisor) == a
  {
  }

  /** The total star count of the reviews. */
  function SumStars(avs: seq<Avaliacao>): int
    decreases |avs|
  {
    if avs == [] then 0 else SumStars(avs[..|avs| - 1]) + avs[|avs| - 1].estrelas
  }

  /** When every review's stars lie between lo and hi, the total lies between |avs| * lo and |avs| * hi. */
  lemma {:induction false} SumStarsBounds(avs: seq<Avaliacao>, lo: int, hi: int)
    requires forall i :: 0 <= i < |avs| ==> lo <= avs[i].estrelas <= hi
    ensures |avs| * lo <= SumStars(avs) <= |avs| * hi
    decreases |avs|
  {
    if avs != [] {
      var n := |avs|;
      SumStarsBounds(avs[..n - 1], lo, hi);
      assert (n - 1) * lo + lo == n * lo && (n - 1) * hi + hi == n * hi;
    }
  }

  /** When every review's stars lie between lo and hi, so does the mean. */
  lemma MeanBounds(avs: seq<Avaliacao>, lo: int, hi: int)
    requires avs != []
    requires forall i :: 0 <= i < |avs| ==> lo <= avs[i].estrelas <= hi
    ensures lo as real <= SumStars(avs) as real / |avs| as real <= hi as real
  {
    SumStarsBounds(avs, lo, hi);
    RealProduct(|avs|, lo);
    RealProduct(|avs|, hi);
    QuotientBounds(SumStars(avs) as real, |avs| as real, lo as real, hi as real);
  }

  lemma RealProduct(a: int, b: int)
    ensures (a * b) as real == a as real * b as real
  {
  }

  lemma QuotientBounds(s: real, n: real, lo: real, hi: real)
    requires n > 0.0 && n * lo <= s <= n * hi
    ensures lo <= s / n <= hi
  {
    var q := s / n;
    assert s == q * n;
  }

  /** A song: a name and the reviews it received, in order. */
  class Musica {
    const nome: JavaString?
    var avaliacoes: seq<Avaliacao>

    constructor (nome: JavaString?)
      ensures this.nome == nome && avaliacoes == []
    {
      this.nome := nome;
      avaliacoes := [];
    }

    method GetNome() returns (r: JavaString?)
      ensures r == nome
    {
      r := nome;
    }

    /** The latest review by u, or null when u has not reviewed the song. */
    method GetAvaliacaoUsuario(u: Usuario?) returns (avaliacao: Avaliacao?)
      ensures avaliacao == LastReviewBy(avaliacoes, u)
    {
      avaliacao := null;
      for i := 0 to |avaliacoes|
        invariant avaliacao == LastReviewBy(avaliacoes[..i], u)
      {
        var a := avaliacoes[i];
        assert avaliacoes[..i + 1][..i] == avaliacoes[..i];
        var revisor := a.GetRevisor();
        if revisor == u {
          avaliacao := a;
        }
      }
      assert avaliacoes[..|avaliacoes|] == avaliacoes;
    }

    /**
     * The mean star count; None stands for the NaN that 0 / 0 gives in
     * float arithmetic when there is no review.
     */
    method CalcularMedia() returns (media: Option<real>)
      ensures avaliacoes == [] ==> media == None
      ensures avaliacoes != [] ==> media == Some(SumStars(avaliacoes) as real / |avaliacoes| as real)
    {
      var soma := 0;
      for i := 0 to |avaliacoes|
        invariant soma == SumStars(avaliacoes[..i])
      {
        assert avaliacoes[..i + 1][..i] == avaliacoes[..i];
        var e := avaliacoes[i].GetEstrelas();
        soma := soma + e;
      }
      assert avaliacoes[..|avaliacoes|] == avaliacoes;
      if |avaliacoes| == 0 {
        media := None;
      } else {
        media := Some(soma as real / |avaliacoes| as real);
      }
    }

    /** Appends one new review by user with the given stars; repeat reviews are accepted. */
    method Avaliar(user: Usuario?, estrelas: int) returns (ok: bool)
      modifies this
      ensures ok
      ensures |avaliacoes| == |old(avaliacoes)| + 1 && avaliacoes[..|old(avaliacoes)|] == old(avaliacoes)
      ensures var a := avaliacoes[|avaliacoes| - 1];
        fresh(a) && a.estrelas == estrelas && a.revisor == user && a.musica == this
      ensures LastReviewBy(avaliacoes, user) == avaliacoes[|avaliacoes| - 1]
    {
      var a := new Avaliacao(estrelas, user, this);
      NewestReviewWins(avaliacoes, a);
      avaliacoes := avaliacoes + [a];
      assert avaliacoes[..|old(avaliacoes)|] == old(avaliacoes);
      ok := true;
    }
  }

  // ---------------------------------------------------------------
  // Playlists, albums, artists
  // ---------------------------------------------------------------

  /** A playlist: songs in order, duplicates allowed. */
  class Playlist {
    var musicas: seq<Musica?>

    constructor ()
      ensures musicas == []
    {
      musicas := [];
    }

    method GetMusicas() returns (r: seq<Musica?>)
      ensures r == musicas
    {
      r := musicas;
    }

    /** Appends m at the end. */
    method AdicionarMusica(m: Musica?) returns (ok: bool)
      modifies this
      ensures ok && musicas == old(musicas) + [m]
    {
      musicas := musicas + [m];
      ok := true;
    }

    /** Removes the first occurrence of m, by identity, and reports whether there was one. */
    method RemoverMusica(m: Musica?) returns (ok: bool)
      modifies this
      ensures ok <==> m in old(musicas)
      ensures musicas == RemoveFirst(old(musicas), m)
    {
      for i := 0 to |musicas|
        invariant forall k :: 0 <= k < i ==> musicas[k] != m
        invariant musicas == old(musicas)
      {
        var n := musicas[i];
        if m == n {
          assert FirstIndex(musicas, m) == i;
          musicas := musicas[..i] + musicas[i + 1..];
          return true;
        }
      }
      assert FirstIndex(musicas, m) == |musicas|;
      ok := false;
    }
  }

  /** An album: a title, a release year and its songs. */
  class Album {
    const titulo: JavaString?
    const anoLancamento: int
    var musicas: seq<Musica?>

    constructor (titulo: JavaString?, anoLancamento: int)
      ensures this.titulo == titulo && this.anoLancamento == anoLancamento && musicas == []
    {
      this.titulo := titulo;
      this.anoLancamento := anoLancamento;
      musicas := [];
    }

    method GetAnoLancamento() returns (r: int)
      ensures r == anoLancamento
    {
      r := anoLancamento;
    }

    method GetTitulo() returns (r: JavaString?)
      ensures r == titulo
    {
      r := titulo;
    }

    method GetMusicas() returns (r: seq<Musica?>)
      ensures r == musicas
    {
      r := musicas;
    }

    /** Counts the album's songs one by one. */
    method GetQtdeMusicas() returns (res: int)
      ensures res == |musicas|
    {
      res := 0;
      for i := 0 to |musicas|
        invariant res == i
      {
        res := res + 1;
      }
    }
  }

  /** The number of songs over a list of albums. */
  function AlbumSongs(albuns: seq<Album>): int
    reads albuns
    decreases |albuns|
  {
    if albuns == [] then 0 else AlbumSongs(albuns[..|albuns| - 1]) + |albuns[|albuns| - 1].musicas|
  }

  lemma {:induction false} AlbumSongsNonNegative(albuns: seq<Album>)
    ensures AlbumSongs(albuns) >= 0
    decreases |albuns|
  {
    if albuns != [] {
      AlbumSongsNonNegative(albuns[..|albuns| - 1]);
    }
  }

  /** An artist: names, a birth date, albums and solo songs. */
  class Artista {
    const nomeArtistico: JavaString?
    const nomeReal: JavaString?
    const dataNascimento: Date?
    var albuns: seq<Album>
    var solos: seq<Musica?>

    constructor (nomeArtistico: JavaString?, nomeReal: JavaString?, dataNasc: Date?)
      ensures this.nomeArtistico == nomeArtistico && this.nomeReal == nomeReal && dataNascimento == dataNasc
      ensures albuns == [] && solos == []
    {
      this.nomeArtistico := nomeArtistico;
      this.nomeReal := nomeReal;
      dataNascimento := dataNasc;
      albuns := [];
      solos := [];
    }

    method GetNomeArtistico() returns (r: JavaString?)
      ensures r == nomeArtistico
    {
      r := nomeArtistico;
    }

    method GetNomeReal() returns (r: JavaString?)
      ensures r == nomeReal
    {
      r := nomeReal;
    }

    method GetDataNascimento() returns (r: Date?)
      ensures r == dataNascimento
    {
      r := dataNascimento;
    }

    method GetAlbuns() returns (r: seq<Album>)
      ensures r == albuns
    {
      r := albuns;
    }

    method GetSolos() returns (r: seq<Musica?>)
      ensures r == solos
    {
      r := solos;
    }

    /** Counts the albums one by one. */
    method GetQtdeAlbum() returns (res: int)
      ensures res == |albuns|
    {
      res := 0;
      for i := 0 to |albuns|
        invariant res == i
      {
        res := res + 1;
      }
    }

    /** Counts the solo songs, then adds each album's song count. */
    method GetQtdeMusicas() returns (res: int)
      ensures res == |solos| + AlbumSongs(albuns)
      ensures res >= |solos|
    {
      res := 0;
      for i := 0 to |solos|
        invariant res == i
      {
        res := res + 1;
      }
      for i := 0 to |albuns|
        invariant res == |solos| + AlbumSongs(albuns[..i])
      {
        assert albuns[..i + 1][..i] == albuns[..i];
        var q := albuns[i].GetQtdeMusicas();
        res := res + q;
      }
      assert albuns[..|albuns|] == albuns;
      AlbumSongsNonNegative(albuns);
    }
  }

  // ---------------------------------------------------------------
  // Users
  // ---------------------------------------------------------------

  /** The text of a possibly null string: equal for two nulls, or for two strings with the same characters. */
  predicate SameText(a: JavaString?, b: JavaString?)
  {
    if a == null || b == null then a == b else a.chars == b.chars
  }

  /** A user: credentials, playlists, favourite songs and the song being played. */
  class Usuario {
    const login: JavaString?
    const senha: JavaString?
    var playlists: seq<Playlist>
    var favoritos: seq<Musica?>
    var escutando: Musica?

    constructor (login: JavaString?, senha: JavaString?)
      ensures this.login == login && this.senha == senha
      ensures playlists == [] && favoritos == [] && escutando == null
    {
      this.login := login;
      this.senha := senha;
      playlists := [];
      favoritos := [];
      escutando := null;
    }

    /** Accepts exactly the very string objects stored as login and password (identity, as `==` does). */
    method VerificarLogin(nome: JavaString?, senha: JavaString?) returns (ok: bool)
      ensures ok <==> nome == login && senha == this.senha
    {
      if nome == login && senha == this.senha {
        return true;
      }
      return false;
    }

    /** Accepts credentials whose text matches the stored login and password. */
    method VerificarLoginPorTexto(nome: JavaString?, senha: JavaString?) returns (ok: bool)
      ensures ok <==> SameText(nome, login) && SameText(senha, this.senha)
    {
      ok := SameText(nome, login) && SameText(senha, this.senha);
    }

    /** Appends m to the favourites; duplicates are allowed. */
    method Favoritar(m: Musica?) returns (ok: bool)
      modifies this
      ensures ok && favoritos == old(favoritos) + [m]
      ensures playlists == old(playlists) && escutando == old(escutando)
    {
      favoritos := favoritos + [m];
      ok := true;
    }

    /** Makes m the song being played; the lists are unchanged. */
    method Escutar(m: Musica?) returns (ok: bool)
      modifies this
      ensures ok && escutando == m
      ensures playlists == old(playlists) && favoritos == old(favoritos)
    {
      escutando := m;
      ok := true;
    }

    /** Appends one new, empty playlist. */
    method CriarPlaylist() returns (ok: bool)
      modifies this
      ensures ok && |playlists| == |old(playlists)| + 1 && playlists[..|old(playlists)|] == old(playlists)
      ensures fresh(playlists[|playlists| - 1]) && playlists[|playlists| - 1].musicas == []
      ensures favoritos == old(favoritos) && escutando == old(escutando)
    {
      var p := new Playlist();
      playlists := playlists + [p];
      assert playlists[..|old(playlists)|] == old(playlists);
      ok := true;
    }
  }

  /** Whatever the identity check accepts, the text check accepts too. */
  lemma IdentityImpliesSameText(a: JavaString?, b: JavaString?)
    requires a == b
    ensures SameText(a, b)
  {
  }

  /**
   * A user who types the right login and password, read into new string
   * objects, is rejected by the identity check and accepted by the text check.
   */
  method RetypedCredentials() returns (porIdentidade: bool, porTexto: bool)
    ensures !porIdentidade && porTexto
  {
    var login := new JavaString("ana");
    var senha := new JavaString("1234");
    var u := new Usuario(login, senha);
    var digitadoLogin := new JavaString("ana");
    var digitadaSenha := new JavaString("1234");
    porIdentidade := u.VerificarLogin(digitadoLogin, digitadaSenha);
    porTexto := u.VerificarLoginPorTexto(digitadoLogin, digitadaSenha);
  }
}
