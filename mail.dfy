/**
 * Outgoing email (src/utils/mailer.ts). Delivery is fire-and-forget and its
 * failures are only logged, so the model keeps nothing but a log of what was
 * handed to the transport.
 */
module Mail {

  datatype Email = Email(from: string, to: string, subject: string, text: string)

  class Mailer {
    ghost var sent: seq<Email>

    constructor ()
      ensures sent == []
    {
      sent := [];
    }

    /** `sendEmail`: never fails towards its caller. */
    method SendEmail(m: Email)
      modifies this
      ensures sent == old(sent) + [m]
    {
      sent := sent + [m];
    }
  }
}
