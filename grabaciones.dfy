/**
 * The camera-recording operation of the home-automation system: the ordered
 * checks that decide whether a device may record, the record that a recording
 * leaves behind, its append to the per-user, per-device history, and the rule
 * that decides whether the user is notified.
 *
 * The device table and the automation table belong to other modules of the
 * system and are inputs here. The clock (start and end times, and the stamp in
 * the file name) and the outcome of writing the history file are inputs too.
 */
module Grabaciones {
  import opened Opt
  import opened Json
  import PyInt

  const ENCENDIDO := "encendido"
  const SIN_AUTOMATIZACION := "Sin automatización"

  const MOTIVO_MANUAL := "manual"
  const MOTIVO_MOVIMIENTO := "movimiento"
  const MOTIVO_PROGRAMADA := "programada"

  const DURACION_POR_DEFECTO := 30
  const DURACION_MOVIMIENTO := 60
  const DURACION_PROGRAMADA := 120

  /** email -> device name -> the device's dict ("estado", "modelo", ...). */
  type Dispositivos = map<string, map<string, Dict>>

  /** email -> device name -> the device's automation config ("encendido", "notificaciones", ...). */
  type Automatizaciones = map<string, map<string, Dict>>

  /** One entry of the recording history, as stored in the history file. */
  datatype Registro = Registro(
    archivo: string,
    inicio: string,
    fin: string,
    duracionSegundos: int,
    motivo: string,
    modeloDispositivo: Value,
    configuracion: Value)

  /** email -> device name -> the device's recordings in insertion order. */
  type Historial = map<string, map<string, seq<Registro>>>

  /**
   * What the recording code reads from outside: the two tables, the clock
   * (`sello` is the start time as it appears in the file name, `inicio` and
   * `fin` are the start and end times as stored), and whether writing the
   * history file succeeds.
   */
  datatype Reloj = Reloj(sello: string, inicio: string, fin: string)

  datatype Entorno = Entorno(
    dispositivos: Dispositivos,
    automatizaciones: Automatizaciones,
    reloj: Reloj,
    escrituraOk: bool)

  datatype Error = DispositivoNoEncontrado | DispositivoApagado | AutomatizacionDesactivada

  /** The "error" text of the failure result. */
  function Mensaje(e: Error): string {
    match e
    case DispositivoNoEncontrado => "Dispositivo no encontrado"
    case DispositivoApagado => "Dispositivo apagado"
    case AutomatizacionDesactivada => "Automatización desactivada"
  }

  /** The "error" text tells the three failures apart. */
  lemma MensajesDistintos(e1: Error, e2: Error)
    requires Mensaje(e1) == Mensaje(e2)
    ensures e1 == e2
  {
  }

  /**
   * The result of one recording call: the success dict, the failure dict, or
   * the KeyError raised when a device dict lacks a key the code indexes.
   */
  datatype Resultado =
    | Exito(archivo: string, duracion: int, inicio: string, fin: string)
    | Fallo(error: Error)
    | ClaveAusente(clave: string)

  /** The outcome of the precondition chain. */
  datatype Verificacion =
    | Permitida(info: Dict, config: Option<Dict>)
    | Rechazada(resultado: Resultado)

  predicate Existe(ds: Dispositivos, email: string, dispositivo: string) {
    email in ds && dispositivo in ds[email]
  }

  predicate Encendido(info: Dict) {
    "estado" in info && info["estado"] == Str(ENCENDIDO)
  }

  /** The automation config for the device, if the user has one for it. */
  function ConfigDe(autos: Automatizaciones, email: string, dispositivo: string): Option<Dict> {
    if email in autos && dispositivo in autos[email] then Some(autos[email][dispositivo]) else None
  }

  /** A config whose "encendido" is falsy blocks recording; a missing key counts as true. */
  predicate Desactivada(config: Option<Dict>) {
    config.Some? && !Truthy(Get(config.value, "encendido", Bool(true)))
  }

  /**
   * The three checks, in order, each run only when the previous ones passed:
   * the device exists for the user, it is switched on, and its automation (if
   * any) is not disabled.
   */
  function Comprobar(ds: Dispositivos, autos: Automatizaciones, email: string, dispositivo: string): (v: Verificacion)
    ensures v == Rechazada(Fallo(DispositivoNoEncontrado)) <==> !Existe(ds, email, dispositivo)
    ensures v == Rechazada(ClaveAusente("estado")) <==>
      Existe(ds, email, dispositivo) && "estado" !in ds[email][dispositivo]
    ensures v == Rechazada(Fallo(DispositivoApagado)) <==>
      Existe(ds, email, dispositivo) && "estado" in ds[email][dispositivo] && !Encendido(ds[email][dispositivo])
    ensures v == Rechazada(Fallo(AutomatizacionDesactivada)) <==>
      Existe(ds, email, dispositivo) && Encendido(ds[email][dispositivo]) && Desactivada(ConfigDe(autos, email, dispositivo))
    ensures v.Permitida? <==>
      Existe(ds, email, dispositivo) && Encendido(ds[email][dispositivo]) && !Desactivada(ConfigDe(autos, email, dispositivo))
    ensures v.Permitida? ==> v.info == ds[email][dispositivo] && v.config == ConfigDe(autos, email, dispositivo)
  {
    if !Existe(ds, email, dispositivo) then Rechazada(Fallo(DispositivoNoEncontrado))
    else
      var info := ds[email][dispositivo];
      if "estado" !in info then Rechazada(ClaveAusente("estado"))
      else if info["estado"] != Str(ENCENDIDO) then Rechazada(Fallo(DispositivoApagado))
      else
        var config := ConfigDe(autos, email, dispositivo);
        if Desactivada(config) then Rechazada(Fallo(AutomatizacionDesactivada))
        else Permitida(info, config)
  }

  /** `f"{email}_{dispositivo}_{sello}.mp4"`. */
  function NombreArchivo(email: string, dispositivo: string, sello: string): string {
    email + "_" + dispositivo + "_" + sello + ".mp4"
  }

  /** The config itself when there is one and it is non-empty, else the marker text. */
  function Configuracion(config: Option<Dict>): Value {
    if config.Some? && Truthy(Obj(config.value)) then Obj(config.value) else Str(SIN_AUTOMATIZACION)
  }

  function NuevoRegistro(archivo: string, reloj: Reloj, duracion: int, motivo: string,
                         modelo: Value, config: Option<Dict>): Registro {
    Registro(archivo, reloj.inicio, reloj.fin, duracion, motivo, modelo, Configuracion(config))
  }

  /** Notify exactly when a non-empty config has truthy "notificaciones" (missing: false) and the reason is motion. */
  predicate Notifica(config: Option<Dict>, motivo: string) {
    && config.Some?
    && Truthy(Obj(config.value))
    && Truthy(Get(config.value, "notificaciones", Bool(false)))
    && motivo == MOTIVO_MOVIMIENTO
  }

  /** The recordings of one device of one user; an absent user or device has none. */
  function Lista(h: Historial, email: string, dispositivo: string): seq<Registro> {
    if email in h && dispositivo in h[email] then h[email][dispositivo] else []
  }

  function DispositivosDe(h: Historial, email: string): map<string, seq<Registro>> {
    if email in h then h[email] else map[]
  }

  /**
   * The history after appending `r` for (email, dispositivo): the user and the
   * device are created when missing, the record goes last in that device's list,
   * and every other list is what it was.
   */
  function Anadir(h: Historial, email: string, dispositivo: string, r: Registro): (h': Historial)
    ensures h'.Keys == h.Keys + {email}
    ensures h'[email].Keys == DispositivosDe(h, email).Keys + {dispositivo}
    ensures h'[email][dispositivo] == Lista(h, email, dispositivo) + [r]
    ensures forall e :: e in h && e != email ==> h'[e] == h[e]
    ensures forall d :: d in DispositivosDe(h, email) && d != dispositivo ==> h'[email][d] == DispositivosDe(h, email)[d]
    ensures forall e, d :: (e != email || d != dispositivo) ==> Lista(h', e, d) == Lista(h, e, d)
  {
    var usuario := DispositivosDe(h, email);
    h[email := usuario[dispositivo := Lista(h, email, dispositivo) + [r]]]
  }

  /** `cargar_grabaciones`: the stored history, or an empty one when the file does not exist. */
  function Cargar(archivo: Option<Historial>): (h: Historial)
    ensures archivo == None ==> h == map[]
    ensures archivo.Some? ==> h == archivo.value
  {
    match archivo
    case None => map[]
    case Some(guardado) => guardado
  }

  /**
   * The duration a manual recording uses for what the user typed: the typed
   * integer when Python's `int` accepts it and it is positive, 30 otherwise
   * (empty input reads as "30").
   */
  function DuracionManual(entrada: string): (d: int)
    ensures d > 0
    ensures PyInt.ParseInt(entrada).Some? && PyInt.ParseInt(entrada).value > 0 ==> d == PyInt.ParseInt(entrada).value
    ensures !(PyInt.ParseInt(entrada).Some? && PyInt.ParseInt(entrada).value > 0) ==> d == DURACION_POR_DEFECTO
  {
    PyInt.ParseThirty();
    var texto := if entrada == "" then "30" else entrada;
    match PyInt.ParseInt(texto)
    case None => DURACION_POR_DEFECTO
    case Some(n) => if n <= 0 then DURACION_POR_DEFECTO else n
  }

  /** Typing a positive number gives that duration. */
  lemma DuracionManualPositiva(n: nat)
    requires n > 0 && |PyInt.Decimal(n)| <= PyInt.MAX_STR_DIGITS
    ensures DuracionManual(PyInt.Decimal(n)) == n
  {
    PyInt.ParseDecimal(n);
  }

  /** Typing zero or a negative number gives the default. */
  lemma DuracionManualNoPositiva(n: nat)
    ensures DuracionManual("-" + PyInt.Decimal(n)) == DURACION_POR_DEFECTO
  {
    if |PyInt.Decimal(n)| <= PyInt.MAX_STR_DIGITS {
      PyInt.ParseNegativeDecimal(n);
    }
  }

  /** Typing a number with more digits than Python converts gives the default. */
  lemma DuracionManualDemasiadoLarga(n: nat)
    requires |PyInt.Decimal(n)| > PyInt.MAX_STR_DIGITS
    ensures DuracionManual(PyInt.Decimal(n)) == DURACION_POR_DEFECTO
  {
    PyInt.ParseTooLong(n);
  }

  /**
   * What one call of the recording operation does, given the stored history
   * file before (`antes`) and after (`despues`) the call: the result it
   * returns and whether it sends a notification.
   */
  ghost predicate Efecto(e: Entorno, antes: Option<Historial>, despues: Option<Historial>,
                         email: string, dispositivo: string, duracion: int, motivo: string,
                         resultado: Resultado, notificada: bool)
  {
    match Comprobar(e.dispositivos, e.automatizaciones, email, dispositivo)
    case Rechazada(fallo) => resultado == fallo && despues == antes && !notificada
    case Permitida(info, config) =>
      if "modelo" !in info then
        resultado == ClaveAusente("modelo") && despues == antes && !notificada
      else
        var registro := NuevoRegistro(NombreArchivo(email, dispositivo, e.reloj.sello), e.reloj,
                                      duracion, motivo, info["modelo"], config);
        && resultado == Exito(registro.archivo, duracion, e.reloj.inicio, e.reloj.fin)
        && despues == (if e.escrituraOk then Some(Anadir(Cargar(antes), email, dispositivo, registro)) else antes)
        && notificada == Notifica(config, motivo)
  }

  /** The history file and the operations that read and write it. */
  class Almacen {
    /** The contents of the history file; None while the file does not exist. */
    var archivo: Option<Historial>

    constructor (inicial: Option<Historial>)
      ensures archivo == inicial
    {
      archivo := inicial;
    }

    /** `guardar_grabaciones`: a failed write is swallowed and leaves the file as it was. */
    method Guardar(h: Historial, escrituraOk: bool)
      modifies this
      ensures archivo == (if escrituraOk then Some(h) else old(archivo))
      ensures escrituraOk ==> Cargar(archivo) == h
    {
      if escrituraOk {
        archivo := Some(h);
      }
    }

    /** `grabar`: check, record, append to the history file, maybe notify. */
    method Grabar(e: Entorno, email: string, dispositivo: string,
                  duracionSegundos: int := DURACION_POR_DEFECTO, motivo: string := MOTIVO_MANUAL)
      returns (resultado: Resultado, notificada: bool)
      modifies this
      ensures Efecto(e, old(archivo), archivo, email, dispositivo, duracionSegundos, motivo, resultado, notificada)
    {
      var v := Comprobar(e.dispositivos, e.automatizaciones, email, dispositivo);
      if v.Rechazada? {
        return v.resultado, false;
      }
      var archivoGrabacion := NombreArchivo(email, dispositivo, e.reloj.sello);
      var grabaciones := Cargar(archivo);
      ghost var cargado := grabaciones;
      if email !in grabaciones {
        grabaciones := grabaciones[email := map[]];
      }
      assert grabaciones == cargado[email := DispositivosDe(cargado, email)];
      if dispositivo !in grabaciones[email] {
        grabaciones := grabaciones[email := grabaciones[email][dispositivo := []]];
      } else {
        assert email in cargado && grabaciones[email] == cargado[email];
        assert grabaciones[email][dispositivo := Lista(cargado, email, dispositivo)] == grabaciones[email];
      }
      ghost var usuario, lista := DispositivosDe(cargado, email), Lista(cargado, email, dispositivo);
      assert grabaciones == cargado[email := usuario[dispositivo := lista]];
      if "modelo" !in v.info {
        return ClaveAusente("modelo"), false;
      }
      var registro := NuevoRegistro(archivoGrabacion, e.reloj, duracionSegundos, motivo, v.info["modelo"], v.config);
      grabaciones := grabaciones[email := grabaciones[email][dispositivo := grabaciones[email][dispositivo] + [registro]]];
      assert usuario[dispositivo := lista][dispositivo := lista + [registro]] == usuario[dispositivo := lista + [registro]];
      assert grabaciones == Anadir(cargado, email, dispositivo, registro);
      Guardar(grabaciones, e.escrituraOk);
      notificada := Notifica(v.config, motivo);
      resultado := Exito(archivoGrabacion, duracionSegundos, e.reloj.inicio, e.reloj.fin);
    }

    /** `grabar_por_movimiento`: 60 seconds, reason "movimiento". */
    method GrabarPorMovimiento(e: Entorno, email: string, dispositivo: string)
      returns (resultado: Resultado, notificada: bool)
      modifies this
      ensures Efecto(e, old(archivo), archivo, email, dispositivo, DURACION_MOVIMIENTO, MOTIVO_MOVIMIENTO, resultado, notificada)
    {
      resultado, notificada := Grabar(e, email, dispositivo, DURACION_MOVIMIENTO, MOTIVO_MOVIMIENTO);
    }

    /** `grabar_programada`: 120 seconds unless the caller says otherwise, reason "programada". */
    method GrabarProgramada(e: Entorno, email: string, dispositivo: string, duracion: int := DURACION_PROGRAMADA)
      returns (resultado: Resultado, notificada: bool)
      modifies this
      ensures Efecto(e, old(archivo), archivo, email, dispositivo, duracion, MOTIVO_PROGRAMADA, resultado, notificada)
      ensures !notificada
    {
      resultado, notificada := Grabar(e, email, dispositivo, duracion, MOTIVO_PROGRAMADA);
    }

    /** `grabar_manual`: the duration the user typed (see DuracionManual), reason "manual". */
    method GrabarManual(e: Entorno, email: string, dispositivo: string, entrada: string)
      returns (resultado: Resultado, notificada: bool)
      modifies this
      ensures Efecto(e, old(archivo), archivo, email, dispositivo, DuracionManual(entrada), MOTIVO_MANUAL, resultado, notificada)
      ensures !notificada
    {
      var duracion := DuracionManual(entrada);
      resultado, notificada := Grabar(e, email, dispositivo, duracion, MOTIVO_MANUAL);
    }
  }
}
