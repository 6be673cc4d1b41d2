/**
 * Counting the records of a history, and what one recording call does to the
 * history file as a whole: a successful call adds exactly one record, at the
 * end of its device's list, and a failed one writes nothing.
 */
module Conteo {
  import opened Opt
  import opened Grabaciones

  /** The sum of the values of a map. */
  ghost function Suma<K>(m: map<K, nat>): nat
    decreases |m|
  {
    if m == map[] then 0
    else
      var k :| k in m;
      m[k] + Suma(m - {k})
  }

  /** The sum does not depend on which key is taken out first. */
  lemma {:induction false} SumaSin<K>(m: map<K, nat>, k: K)
    requires k in m
    ensures Suma(m) == m[k] + Suma(m - {k})
    decreases |m|
  {
    var j :| j in m && Suma(m) == m[j] + Suma(m - {j});
    if j != k {
      SumaSin(m - {j}, k);
      SumaSin(m - {k}, j);
      assert m - {j} - {k} == m - {k} - {j};
    }
  }

  /** Replacing the value under `k` (or adding it) changes the sum by the difference. */
  lemma SumaCambio<K>(m: map<K, nat>, k: K, v: nat)
    ensures Suma(m[k := v]) + (if k in m then m[k] else 0) == Suma(m) + v
  {
    SumaSin(m[k := v], k);
    assert m[k := v] - {k} == m - {k};
    if k in m {
      SumaSin(m, k);
    } else {
      assert m - {k} == m;
    }
  }

  /** The number of recordings of one user, over all of their devices. */
  ghost function TotalUsuario(u: map<string, seq<Registro>>): nat {
    Suma(map d | d in u :: |u[d]|)
  }

  /** The number of recordings in a history. */
  ghost function Total(h: Historial): nat {
    Suma(map e | e in h :: TotalUsuario(h[e]))
  }

  /** Giving device `d` one more recording adds one to the user's count. */
  lemma TotalUsuarioUnoMas(u: map<string, seq<Registro>>, d: string, l: seq<Registro>, r: Registro)
    requires l == (if d in u then u[d] else [])
    ensures TotalUsuario(u[d := l + [r]]) == TotalUsuario(u) + 1
  {
    var u' := u[d := l + [r]];
    var cuentas := map x | x in u :: |u[x]|;
    assert (map x | x in u' :: |u'[x]|) == cuentas[d := |l| + 1];
    SumaCambio(cuentas, d, |l| + 1);
  }

  /** Changing one user's recordings changes the total by the change in that user's count. */
  lemma TotalCambio(h: Historial, email: string, u: map<string, seq<Registro>>)
    ensures Total(h[email := u]) + (if email in h then TotalUsuario(h[email]) else 0) == Total(h) + TotalUsuario(u)
  {
    var h' := h[email := u];
    var totales := map e | e in h :: TotalUsuario(h[e]);
    assert (map e | e in h' :: TotalUsuario(h'[e])) == totales[email := TotalUsuario(u)];
    SumaCambio(totales, email, TotalUsuario(u));
  }

  /** Appending one record adds exactly one to the total. */
  lemma AnadirTotal(h: Historial, email: string, dispositivo: string, r: Registro)
    ensures Total(Anadir(h, email, dispositivo, r)) == Total(h) + 1
  {
    var u := DispositivosDe(h, email);
    TotalUsuarioUnoMas(u, dispositivo, Lista(h, email, dispositivo), r);
    TotalCambio(h, email, u[dispositivo := Lista(h, email, dispositivo) + [r]]);
    if email !in h {
      assert (map d | d in u :: |u[d]|) == map[];
    }
  }

  /**
   * A successful recording whose file write succeeds leaves the history with
   * one more record: the new one, last in its device's list, carrying the
   * result's file name, duration, start and end, the call's reason, the
   * device's model and the config snapshot. No other list changes.
   */
  lemma ExitoAnadeUnRegistro(e: Entorno, antes: Option<Historial>, despues: Option<Historial>,
                             email: string, dispositivo: string, duracion: int, motivo: string,
                             resultado: Resultado, notificada: bool)
    requires Efecto(e, antes, despues, email, dispositivo, duracion, motivo, resultado, notificada)
    requires resultado.Exito? && e.escrituraOk
    ensures Total(Cargar(despues)) == Total(Cargar(antes)) + 1
    ensures var previa, nueva := Lista(Cargar(antes), email, dispositivo), Lista(Cargar(despues), email, dispositivo);
      && |nueva| == |previa| + 1
      && nueva[..|previa|] == previa
      && nueva[|previa|].archivo == resultado.archivo
      && nueva[|previa|].duracionSegundos == duracion == resultado.duracion
      && nueva[|previa|].inicio == resultado.inicio
      && nueva[|previa|].fin == resultado.fin
      && nueva[|previa|].motivo == motivo
      && nueva[|previa|].modeloDispositivo == e.dispositivos[email][dispositivo]["modelo"]
      && nueva[|previa|].configuracion == Configuracion(ConfigDe(e.automatizaciones, email, dispositivo))
    ensures Cargar(despues).Keys == Cargar(antes).Keys + {email}
    ensures forall u :: u in Cargar(antes) && u != email ==> Cargar(despues)[u] == Cargar(antes)[u]
    ensures Cargar(despues)[email].Keys == DispositivosDe(Cargar(antes), email).Keys + {dispositivo}
    ensures forall d :: d in DispositivosDe(Cargar(antes), email) && d != dispositivo ==>
      Cargar(despues)[email][d] == DispositivosDe(Cargar(antes), email)[d]
  {
    var v := Comprobar(e.dispositivos, e.automatizaciones, email, dispositivo);
    var registro := NuevoRegistro(NombreArchivo(email, dispositivo, e.reloj.sello), e.reloj,
                                  duracion, motivo, v.info["modelo"], v.config);
    AnadirTotal(Cargar(antes), email, dispositivo, registro);
  }

  /** A call that does not succeed leaves the history file alone and notifies nobody. */
  lemma FalloNoEscribe(e: Entorno, antes: Option<Historial>, despues: Option<Historial>,
                       email: string, dispositivo: string, duracion: int, motivo: string,
                       resultado: Resultado, notificada: bool)
    requires Efecto(e, antes, despues, email, dispositivo, duracion, motivo, resultado, notificada)
    requires !resultado.Exito?
    ensures despues == antes && !notificada
  {
  }

  /**
   * A notification is sent exactly when the call succeeds, the device has a
   * non-empty config with truthy "notificaciones", and the reason is motion.
   */
  lemma CuandoNotifica(e: Entorno, antes: Option<Historial>, despues: Option<Historial>,
                       email: string, dispositivo: string, duracion: int, motivo: string,
                       resultado: Resultado, notificada: bool)
    requires Efecto(e, antes, despues, email, dispositivo, duracion, motivo, resultado, notificada)
    ensures notificada <==> resultado.Exito? && Notifica(ConfigDe(e.automatizaciones, email, dispositivo), motivo)
  {
  }
}
