/**
 * The mail transport behind `EmailService.EnviarCorreo`: an append-only log
 * of the messages that went out. A send to an address in `rechazados`
 * throws, and the message is not logged.
 */
module Correos {

  /** One message: recipient, subject and body. */
  datatype Correo = Correo(destinatario: string, asunto: string, cuerpo: string)

  class EmailService {
    /** Every message sent so far, oldest first. */
    var enviados: seq<Correo>
    /** The addresses the transport refuses. */
    var rechazados: set<string>

    constructor (rechazados: set<string>)
      ensures enviados == [] && this.rechazados == rechazados
    {
      enviados := [];
      this.rechazados := rechazados;
    }

    /** `EnviarCorreo`: `ok` is false when the send throws. */
    method EnviarCorreo(destinatario: string, asunto: string, cuerpo: string) returns (ok: bool)
      modifies this`enviados
      ensures ok <==> destinatario !in rechazados
      ensures enviados == if ok then old(enviados) + [Correo(destinatario, asunto, cuerpo)]
                          else old(enviados)
    {
      ok := destinatario !in rechazados;
      if ok {
        enviados := enviados + [Correo(destinatario, asunto, cuerpo)];
      }
    }
  }
}
