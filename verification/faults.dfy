/**
 * The exceptions the payment and usage views can raise, one constructor per
 * cause. The views either let them escape (Django then answers 500) or catch
 * them and answer with an error body.
 */
module Faults {

  datatype Fault =
    | GatewayUnreachable       // requests.get raised: connection refused, DNS failure, reset
    | UndecodableBody          // UnicodeDecodeError from request.body.decode('utf-8')
    | NonAsciiDigest           // TypeError from hmac.compare_digest on a non-ASCII str
    | InvalidJson              // json.loads / response.json() could not parse the text
    | NotAMapping              // TypeError or AttributeError: subscript or .get on a non-dict
    | MissingKey(key: string)  // KeyError
    | NotANumber               // TypeError from `amount / 100`
    | UnknownUser              // User.DoesNotExist for metadata.user_id
    | MissingProfile           // the user has no UserProfile row
    | InvalidReference         // a reference value a CharField cannot hold (null, list, ...)
    | ReferenceTooLong         // paystack_reference beyond max_length=100
    | AmountOutOfRange         // amount beyond max_digits=10, decimal_places=2
    | DuplicateReference       // IntegrityError: paystack_reference is unique
}
