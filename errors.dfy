/**
 * The exceptions that can escape from the notification core.  Each one
 * stands for a Python exception class raised by the framework, the mail
 * transport or the SMS provider's SDK.
 */
module Errors {
  datatype Exception =
    /** an SDK exception that is not a `TwilioRestException` (not caught by the gateway) */
    | ProviderError(message: string)
    /** `send_mail(..., fail_silently=False)` failing for one recipient */
    | SmtpError(recipient: string)
    /** `send_mail` refusing a header value that holds a line break, whatever `fail_silently` says */
    | BadHeaderError(header: string)
    /** iterating over a value that is not iterable, e.g. `False` */
    | TypeError(message: string)
    /** reading an attribute an object does not have */
    | AttributeError(name: string)
    /** a queryset lookup naming a field the model does not have */
    | FieldError(name: string)
    /** a database uniqueness constraint violated on save */
    | IntegrityError(field: string)
    /** `get()` / `get_object_or_404` matching more than one row */
    | MultipleObjectsReturned
    /** date arithmetic below the smallest representable date */
    | OverflowError
}
