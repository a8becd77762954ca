/** The repository carries the parser three times, and the copies have drifted:
    the service module `circulaire_service.py`, the standalone script
    `parse_circulaire.py`, and the Odoo add-on `addons/phct_circulaire/models/circulaire.py`.
    Where they differ the model takes the copy as a parameter. */
module Copies {

  datatype Copy =
    | Service     // circulaire_service.py: nine line patterns, veterinary sections skipped
    | Standalone  // parse_circulaire.py: nine line patterns, veterinary sections parsed
    | Addon       // the add-on: five line patterns, veterinary sections skipped
}
