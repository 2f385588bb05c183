/**
 The shape of a pending one-time-passcode record (`models/OtpModel.js`). The
 record is keyed by its `email_or_phone` identifier in the pending store.
 */
module OtpModel {

  /** `code` is the passcode as a string; `expiresAt` is an absolute time in
      milliseconds since the epoch. */
  datatype Otp = Otp(code: string, expiresAt: nat)
}
