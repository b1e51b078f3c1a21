# Eco impact of a clothing listing

A model of the one piece of behaviour in the swap-fashion backend that is not
framework glue: the eco-impact rule of `ClothingListing.save`. A listing of a
peer-to-peer clothing swap carries an estimate, in kg of CO2, of what swapping
the item saves. When a listing is saved and that estimate is still zero, it is
computed as 5.0 scaled by a category factor (synthetic 1.5, cotton 0.8, any
other 1.0) and a condition factor (new 1.2, like_new 1.0, good 0.8, fair 0.6,
any other 1.0). A non-zero estimate is never recomputed.

Everything is one module, `Models` in `models.dfy`, as the choice lists are
class attributes of `ClothingListing` in the same source file. The module holds
the two choice lists of the listing (`CONDITION_CHOICES`, `CATEGORY_CHOICES`)
as datatypes with their stored keys, labels and declared order, the parse from
a stored string back to a choice, and the default category `mixed`. It also
holds the factors, the estimate, the value a save leaves in `eco_impact`, the
imperative computation done inside `save`, and a class `Listing` whose `Save`
updates its `ecoImpact` field in place.

The `category` and `condition` fields stay strings, as the database columns
are: `save` itself never checks them against the choice lists, and any string
outside the tables falls back to a factor of 1.0. Because of that fallback the
bounds 2.4 and 9.0 hold for every pair of strings, not only for choice values.

## Model

| member | source | states |
|---|---|---|
| `Models.Condition.Key` | backend/core/models.py:13-16 | the stored keys `new`, `like_new`, `good`, `fair`; each is non-empty and fits the 10-character column of line 26 |
| `Models.Condition.Label` | backend/core/models.py:13-16 | definition only: the labels New, Like New, Good, Fair |
| `Models.Category.Key` | backend/core/models.py:19-21 | the stored keys `cotton`, `synthetic`, `mixed`; each is non-empty and fits the 10-character column of line 27 |
| `Models.Category.Label` | backend/core/models.py:19-21 | definition only: the labels Cotton/Natural, Synthetic, Mixed |
| `Models.ConditionChoices` | backend/core/models.py:12-17 | definition only: the conditions in declared order, new first |
| `Models.CategoryChoices` | backend/core/models.py:18-22 | definition only: the categories in declared order |
| `Models.DefaultCategory` | backend/core/models.py:27 | definition only: the default category `mixed` |
| `Models.ChoiceListsComplete` | backend/core/models.py:12-22 | each choice list names every choice, and none twice |
| `Models.IndexOf` | backend/core/models.py:12-22 | the position found is the first one holding the element, as a list lookup gives it |
| `Models.ConditionRank` | backend/core/models.py:12-17 | every condition has a position in the choice list, and the list holds that condition there |
| `Models.ParseCondition` | backend/core/models.py:12-17 | a stored string parses to the condition whose key it is, and to None exactly when no condition has that key |
| `Models.ParseCategory` | backend/core/models.py:18-22 | a stored string parses to the category whose key it is, and to None exactly when no category has that key |
| `Models.ConditionKeyRoundTrip` | backend/core/models.py:12-17 | parsing the key of a condition gives that condition back, so the keys are distinct |
| `Models.CategoryKeyRoundTrip` | backend/core/models.py:18-22 | parsing the key of a category gives that category back, so the keys are distinct |
| `Models.BaseImpact` | backend/core/models.py:36 | definition only: the unscaled estimate 5.0 |
| `Models.ConditionMultipliers` | backend/core/models.py:41 | definition only: the condition multiplier table |
| `Models.CategoryFactor` | backend/core/models.py:37-40 | the factor is 1.5 exactly for synthetic, 0.8 exactly for cotton, and 1.0 exactly for mixed or a string outside the choices; it lies in [0.8, 1.5] |
| `Models.ConditionFactor` | backend/core/models.py:41-42 | the factor is 1.2 exactly for new, 0.8 exactly for good, 0.6 exactly for fair, and 1.0 exactly for like_new or a string outside the table; it lies in [0.6, 1.2] |
| `Models.Estimate` | backend/core/models.py:36-42 | for any category and condition the estimate lies between 2.4 and 9.0 |
| `Models.MinimumOnlyAtCottonFair` | backend/core/models.py:36-42 | the estimate is 2.4 if and only if the listing is cotton in fair condition |
| `Models.MaximumOnlyAtSyntheticNew` | backend/core/models.py:36-42 | the estimate is 9.0 if and only if the listing is synthetic in new condition |
| `Models.ConditionOrdersEstimate` | backend/core/models.py:41-42 | with the category fixed, new > like_new > good > fair |
| `Models.ChoiceOrderRanksEstimate` | backend/core/models.py:12-17 | any condition listed earlier in the choice list gives a strictly larger estimate than one listed later |
| `Models.EarlierConditionLargerEstimate` | backend/core/models.py:12-17 | for two conditions and any category, one is listed before the other if and only if its estimate is larger |
| `Models.CategoryOrdersEstimate` | backend/core/models.py:37-40 | with the condition fixed, synthetic beats every other category and every other category beats cotton |
| `Models.SavedImpact` | backend/core/models.py:35-42 | after a save the eco impact is never zero; a non-zero value, negative ones included, is kept; a zero value becomes the estimate |
| `Models.SaveIdempotent` | backend/core/models.py:35-42 | saving twice leaves the same eco impact as saving once |
| `Models.ComputeEcoImpact` | backend/core/models.py:36-42 | the step-by-step scaling of the base value done inside `save` yields the estimate |
| `Models.Listing.constructor` | backend/core/models.py:24-32 | a new listing has the given fields, category `mixed`, is public and has eco impact 0.0 |
| `Models.Listing.WithCategory` | backend/core/models.py:24-32 | a new listing has the given fields, is public and has eco impact 0.0 |
| `Models.Listing.Save` | backend/core/models.py:34-43 | only `ecoImpact` may change, and it becomes the value `SavedImpact` gives for the old value |
| `Models.CreateListing` | backend/core/models.py:32-43 | the first save of a new listing always fills in the estimate and keeps every other field |

## Left out

- Floating point: the multipliers are exact decimals (`real`). Nothing is lost for the twelve choice pairs: in IEEE-754 doubles, computed in the source's order (5.0, times the category factor, times the condition factor), each product is the double nearest the exact decimal (4.0 × 0.6 gives the double of 2.4, 7.5 × 1.2 gives 9.0), so the extremes and both orderings hold for the floats too. The model has no NaN and no infinity; a pre-set NaN or infinity is non-zero, so Python treats it as set and `save` keeps it.
- A `None` eco impact: the column is not nullable, so the model's field is always a number.
- Persistence: `super().save(...)`, the ORM and the database belong to Django and are not modelled; `Save` ends with the field update.
- The `wardrobe` foreign key, `created_at`, `image` and the GIS `location` point are not fields of `Listing`: `save` neither reads nor writes them, and they depend on the database, file storage and a GIS library.
- The `Wardrobe` model and its `__str__`, and `ClothingListing.__str__`: string formatting only.
- backend/core/views.py, backend/core/serializers.py, backend/core/urls.py and backend/core/admin.py are not part of this model: they are request handling, validation of choices and token issuance done by Django REST framework.
- The nearby-listings geospatial query: its implementation is not in the repository.
- The React front end (frontend/src): rendering, HTTP requests, local storage and geolocation, all I/O.
