/**
 * The history viewer: which recordings are shown for a user, or for one of
 * their devices. Only the selection is modelled; each shown recording is the
 * line of fields the viewer prints for it.
 */
module Consulta {
  import opened Opt
  import opened Grabaciones

  /** At most this many recordings are shown per device, the most recent ones. */
  const MAX_RECIENTES := 5

  /** The fields printed for one recording. */
  datatype Linea = Linea(archivo: string, inicio: string, fin: string, duracionSegundos: int, motivo: string)

  /** The view of one device: "Sin grabaciones", or the recent ones and how many older were left out. */
  datatype VistaDispositivo =
    | SinGrabaciones
    | Recientes(lineas: seq<Linea>, omitidas: nat)

  /** The view of a user's history. */
  datatype VistaHistorial =
    | SinHistorialUsuario
    | SinHistorialDispositivo(dispositivo: string)
    | Listado(vistas: map<string, VistaDispositivo>)

  function Mostrar(r: Registro): Linea {
    Linea(r.archivo, r.inicio, r.fin, r.duracionSegundos, r.motivo)
  }

  function MostrarTodas(rs: seq<Registro>): (ls: seq<Linea>)
    ensures |ls| == |rs|
    ensures forall i :: 0 <= i < |rs| ==> ls[i] == Mostrar(rs[i])
  {
    if rs == [] then [] else [Mostrar(rs[0])] + MostrarTodas(rs[1..])
  }

  /** Python's `s[-k:]` for a positive `k`. */
  function UltimosN<T>(s: seq<T>, k: nat): seq<T>
    requires k > 0
  {
    if |s| > k then s[|s| - k..] else s
  }

  /**
   * The view of one device's recordings: "Sin grabaciones" for none, otherwise
   * the last min(5, n) in their original order, and n - 5 reported as left out
   * when there are more than 5.
   */
  function Vista(grabaciones: seq<Registro>): (v: VistaDispositivo)
    ensures v.SinGrabaciones? <==> grabaciones == []
    ensures v.Recientes? ==>
      && |v.lineas| == (if |grabaciones| < MAX_RECIENTES then |grabaciones| else MAX_RECIENTES)
      && v.omitidas + |v.lineas| == |grabaciones|
      && forall i :: 0 <= i < |v.lineas| ==> v.lineas[i] == Mostrar(grabaciones[v.omitidas + i])
  {
    if grabaciones == [] then SinGrabaciones
    else
      Recientes(MostrarTodas(UltimosN(grabaciones, MAX_RECIENTES)),
                if |grabaciones| > MAX_RECIENTES then |grabaciones| - MAX_RECIENTES else 0)
  }

  /** `if dispositivo:` — no device, or the empty name, means every device. */
  predicate Seleccionado(dispositivo: Option<string>) {
    dispositivo.Some? && dispositivo.value != ""
  }

  /**
   * The view of a user's history: a warning when the user has none, a warning
   * when the chosen device has none, otherwise the view of the chosen device,
   * or of every device of the user.
   */
  function Historia(h: Historial, email: string, dispositivo: Option<string>): (v: VistaHistorial)
    ensures v.SinHistorialUsuario? <==> email !in h
    ensures v.SinHistorialDispositivo? <==>
      email in h && Seleccionado(dispositivo) && dispositivo.value !in h[email]
    ensures v.SinHistorialDispositivo? ==> v.dispositivo == dispositivo.value
    ensures v.Listado? ==>
      && v.vistas.Keys == (if Seleccionado(dispositivo) then {dispositivo.value} else h[email].Keys)
      && forall d :: d in v.vistas ==> v.vistas[d] == Vista(h[email][d])
  {
    if email !in h then SinHistorialUsuario
    else if Seleccionado(dispositivo) then
      if dispositivo.value in h[email] then Listado(map[dispositivo.value := Vista(h[email][dispositivo.value])])
      else SinHistorialDispositivo(dispositivo.value)
    else Listado(map d | d in h[email] :: Vista(h[email][d]))
  }

  /** `mostrar_grabaciones_dispositivo`: one line per recent recording, in order. */
  method MostrarDispositivo(grabaciones: seq<Registro>) returns (v: VistaDispositivo)
    ensures v == Vista(grabaciones)
  {
    if grabaciones == [] {
      return SinGrabaciones;
    }
    var recientes := UltimosN(grabaciones, MAX_RECIENTES);
    var lineas: seq<Linea> := [];
    for j := 0 to |recientes|
      invariant |lineas| == j
      invariant forall i :: 0 <= i < j ==> lineas[i] == Mostrar(recientes[i])
    {
      lineas := lineas + [Mostrar(recientes[j])];
    }
    var omitidas := 0;
    if |grabaciones| > MAX_RECIENTES {
      omitidas := |grabaciones| - MAX_RECIENTES;
    }
    v := Recientes(lineas, omitidas);
  }

  /** `ver_historial_grabaciones`, over the history as loaded from the file. */
  method VerHistorial(h: Historial, email: string, dispositivo: Option<string> := None)
    returns (v: VistaHistorial)
    ensures v == Historia(h, email, dispositivo)
  {
    if email !in h {
      return SinHistorialUsuario;
    }
    var usuario := h[email];
    if Seleccionado(dispositivo) {
      if dispositivo.value in usuario {
        var vista := MostrarDispositivo(usuario[dispositivo.value]);
        return Listado(map[dispositivo.value := vista]);
      }
      return SinHistorialDispositivo(dispositivo.value);
    }
    var pendientes := usuario.Keys;
    var vistas: map<string, VistaDispositivo> := map[];
    while pendientes != {}
      invariant pendientes <= usuario.Keys
      invariant vistas.Keys == usuario.Keys - pendientes
      invariant forall d :: d in vistas ==> vistas[d] == Vista(usuario[d])
      decreases pendientes
    {
      var d :| d in pendientes;
      var vista := MostrarDispositivo(usuario[d]);
      vistas := vistas[d := vista];
      pendientes := pendientes - {d};
    }
    v := Listado(vistas);
  }

  /**
   * After a recording is appended for a device, viewing that device (or all of
   * the user's devices) shows it as the last line, and reports one more
   * left-out recording exactly when the device already had five or more.
   */
  lemma AnadidaSeMuestraUltima(h: Historial, email: string, dispositivo: string, r: Registro, pedido: Option<string>)
    requires pedido == Some(dispositivo) || pedido == None
    ensures var v := Historia(Anadir(h, email, dispositivo, r), email, pedido);
      && v.Listado? && dispositivo in v.vistas
      && v.vistas[dispositivo].Recientes?
      && |v.vistas[dispositivo].lineas| > 0
      && v.vistas[dispositivo].lineas[|v.vistas[dispositivo].lineas| - 1] == Mostrar(r)
      && var previa := Lista(h, email, dispositivo);
         v.vistas[dispositivo].omitidas == (if |previa| >= MAX_RECIENTES then |previa| + 1 - MAX_RECIENTES else 0)
  {
  }
}
